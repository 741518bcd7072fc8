# IoT device simulator — verified model

This project models the core of a small IoT simulator. The core is a device hierarchy and the automation system that drives it. A base device has an identifier and an on/off status. A smart light adds a brightness, a thermostat adds a temperature and a security camera adds a security status. The automation system owns an ordered, append-only list of discovered devices. It randomises their state in passes: each device's status is set to "on" or "off" by a coin draw, whatever it was, a light's brightness drifts by up to ±10 and is clamped to [0, 100], a thermostat's temperature drifts by up to ±2 and is clamped to [10, 30], and a camera's security status is picked from "secure" and "insecure". It also reports each device's current state, keyed by device id.

Modules:

- `Devices` (`devices.dfy`) holds one class, `IoTDevice`, for the base class and its three subclasses. The `extra` field is an `Extra` value that names the kind and carries the kind's attribute. The named constructors `SmartLight`, `Thermostat` and `SecurityCamera` fix the kind. The setters and the lights' and thermostats' own randomisation (a full-range resample) are methods that update fields in place.
- `Automation` (`automation.dfy`) holds the `AutomationSystem` class. Its methods are specified against pure functions. `Drift` is one step on one device's state. `Pass` (one pass over the list) and `Rounds` (repeated passes) work on a map from device objects to their states. `Log` is the report, built from the sequence of the listed devices' states in list order. The properties are proved about those functions.
- `Bootstrap` (`bootstrap.dfy`) is the start-up sequence of `main.py`, minus the dashboard. `main.py` does not read the report itself, so `StartUp` adds one `log_device_data` call at the end to state what the simulation leaves behind.
- `Scenarios` (`scenarios.dfy`) holds the unit tests' scenarios, written as clients of the device classes. `SwitchTwice` and the camera part of `SettersStoreUnchecked` go beyond what the tests check.

Every draw of Python's `random` module is a parameter, and a `requires` clause bounds it to the range the call can return:

- `random()` lies in [0, 1);
- `uniform(a, b)` lies in [a, b];
- `randint(0, 100)` lies in {0..100};
- `choice` over a two-element list becomes an index 0 or 1.

Brightness and temperature are mathematical `real`s. The status is a `string`, as in the source, so a constructor may be given any status. Every operation after construction that sets the status leaves it "on" or "off".

## Model

| member | source | states |
|---|---|---|
| Devices.IoTDevice.constructor | device_classes/IoTDevice.py:2-4 | a plain device has the given id and status; the status defaults to "off" |
| Devices.IoTDevice.SmartLight | device_classes/smart_light.py:6-8 | a light has the given id and status, defaulting to "off", and the given brightness, defaulting to 0 |
| Devices.IoTDevice.Thermostat | device_classes/thermostat.py:6-19 | a thermostat has the given id and status, defaulting to "off", and the given temperature, defaulting to 22.0 |
| Devices.IoTDevice.SecurityCamera | device_classes/security_camera.py:4-17 | a camera has the given id and status, defaulting to "off", and the given security status, defaulting to "Secure" |
| Devices.IoTDevice.TurnOn | device_classes/IoTDevice.py:6-7 | the status is "on" whatever it was before, so a second call changes nothing; the id and the kind-specific attribute are unchanged |
| Devices.IoTDevice.TurnOff | device_classes/IoTDevice.py:11-12 | the status is "off" whatever it was before, so a second call changes nothing; the id and the kind-specific attribute are unchanged |
| Devices.IoTDevice.SetBrightness | device_classes/smart_light.py:10-11 | stores exactly the given brightness, with no clamping; id and status unchanged |
| Devices.IoTDevice.RandomizeLightState | device_classes/smart_light.py:13-19 | the status is "on" iff the coin is below 0.5; the brightness becomes the `randint` draw, so it lies in [0, 100] whatever it was before |
| Devices.IoTDevice.SetTemperature | device_classes/thermostat.py:21-31 | stores exactly the given temperature; the documented range of 10 to 30 is not enforced; id and status unchanged |
| Devices.IoTDevice.RandomizeThermostatState | device_classes/thermostat.py:33-43 | the status is "on" iff the coin is below 0.5; the temperature becomes the `uniform(10, 30)` draw, so it lies in [10, 30] whatever it was before |
| Devices.IoTDevice.SetSecurityStatus | device_classes/security_camera.py:19-29 | stores exactly the given security status, whether or not it is "Secure" or "Insecure"; id and status unchanged |
| Devices.CoinStatus | automation_system/automation_system.py:38-41 | the status chosen by a coin draw is "on" or "off", and it is "on" exactly when the coin is below 0.5 |
| Automation.Clamp | automation_system/automation_system.py:47 | `max(lo, min(hi, x))` lies in [lo, hi]; it is x itself when x is in range, and otherwise the bound x overshoots |
| Automation.Drift | automation_system/automation_system.py:31-59 | one step keeps the id and the kind; the status is "on" iff the coin is below 0.5; a light's brightness ends in [0, 100] and a thermostat's temperature in [10, 30], equal to the drifted value when that is in range and to the overshot bound (0 or 100, 10 or 30) otherwise; a camera's status is the chosen one of "secure"/"insecure"; a plain device changes only its status |
| Automation.Pass | automation_system/automation_system.py:24-29 | one pass over the list leaves the set of device objects unchanged |
| Automation.PassPerObject | automation_system/automation_system.py:24-29 | in a pass, each device object receives the steps drawn for its own list entries, in list order, even when it was discovered more than once |
| Automation.PassDistinct | automation_system/automation_system.py:24-29 | with no object listed twice, a pass steps each listed device exactly once with its own draw and leaves every other object alone |
| Automation.PassSettles | automation_system/automation_system.py:28-29 | after a pass every listed device has status "on" or "off" and its attribute within its clamp range, whatever its state before |
| Automation.PassKeepsShape | automation_system/automation_system.py:24-29 | a pass keeps every device's id and kind |
| Automation.Rounds | automation_system/automation_system.py:83-91 | repeated passes leave the set of device objects unchanged |
| Automation.RoundsProperties | automation_system/automation_system.py:83-91 | repeated passes keep every id and kind; zero passes change nothing; one pass or more leaves every listed device settled |
| Automation.DrawsFor | automation_system/automation_system.py:28-29 | the draws a pass uses on one object are all valid draws |
| Automation.Log | automation_system/automation_system.py:69-81 | the report built in list order, a later id overwriting an earlier entry: it has at most one entry per device, and the last device's id maps to that device's snapshot |
| Automation.LogKeys | automation_system/automation_system.py:69-81 | the report's keys are exactly the ids of the discovered devices |
| Automation.LogLastWins | automation_system/automation_system.py:70-80 | the entry for an id is the snapshot of the last device in list order that has that id |
| Automation.LogEntryIsLast | automation_system/automation_system.py:70-80 | every entry of the report is the snapshot of the last device in list order that has its id |
| Automation.LogSizeDistinct | automation_system/automation_system.py:69-81 | with distinct ids the report has exactly one entry per device |
| Automation.AutomationSystem.constructor | automation_system/automation_system.py:9-13 | a new system has an empty device list |
| Automation.AutomationSystem.DiscoverDevice | automation_system/automation_system.py:15-22 | the device is appended at the end, after the earlier devices in their old positions; duplicates are not rejected |
| Automation.AutomationSystem.RandomizeDeviceState | automation_system/automation_system.py:31-59 | the device's new state is one `Drift` step from its old state |
| Automation.AutomationSystem.RandomizeEntry | automation_system/automation_system.py:28-29 | the step on the i-th list entry changes the map of states only at that entry's object, which becomes one `Drift` step from its old state |
| Automation.AutomationSystem.ExecuteAutomation | automation_system/automation_system.py:24-29 | the new states are one `Pass` over the list from the old ones; every device ends settled and keeps its id and kind; the list is unchanged |
| Automation.AutomationSystem.Simulate | automation_system/automation_system.py:83-91 | the new states are `Rounds` over the old ones, that is n passes in a row; a count of zero or less changes nothing; ids and kinds are kept |
| Automation.AutomationSystem.LogDeviceData | automation_system/automation_system.py:61-81 | the report equals `Log` of the devices' current states, its keys are the ids of the devices, and nothing is changed |
| Bootstrap.StartUp | main.py:8-19 | after three devices are discovered and simulated three times, a report read afterwards (an addition: the start-up code does not read it) has exactly their three ids; the light's brightness is in [0, 100], the thermostat's temperature is in [10, 30], the camera's status is "secure" or "insecure", and every status is "on" or "off" |
| Bootstrap.DiscoverThree | main.py:8-16 | the light, thermostat and camera are built with main.py's ids and initial states and discovered in that order |
| Bootstrap.RunSimulation | main.py:19 | `simulate(3)` keeps every id and kind and leaves every device settled |
| Bootstrap.ReportOfStartUp | automation_system/automation_system.py:69-81 | the report of the start-up sequence's three settled devices has exactly their three ids, the light's brightness in [0, 100], the thermostat's temperature in [10, 30], the camera's status "secure" or "insecure", and every status "on" or "off" |
| Bootstrap.ReportOfThree | automation_system/automation_system.py:69-81 | the report of three settled devices with distinct ids, the third a camera, has one entry per id, each the snapshot of its device, every status "on" or "off" and the camera's security status "secure" or "insecure" |
| Scenarios.LightRandomizedRepeatedly | testing/TestSmartLight.py:21-28 | after each of any number of calls of the light's own randomisation, the status is "on" or "off" and the brightness lies in [0, 100] |
| Scenarios.ThermostatRandomizedOnce | testing/TestThermostat.py:22-26 | the thermostat's own randomisation leaves the status "on" or "off" and the temperature in [10, 30] |
| Scenarios.SettersStoreUnchecked | testing/TestSmartLight.py:16-19 | the light's setter stores whatever brightness it is given (50 in the test, and any other value such as 150, unclamped); the thermostat's and camera's setters do the same |
| Scenarios.SwitchTwice | device_classes/IoTDevice.py:6-13 | switching on, or off, twice gives the same state as doing it once, with the camera's id and security status unchanged |

## Left out

- The `print` calls in `turn_on` and `turn_off` are console output and are not modelled.
- The `timestamp` field of each report entry is a wall-clock read. The model's snapshot omits it.
- Python's `random` module is replaced by parameters bounded to each call's range. Nothing about probabilities or distributions is modelled.
- Brightness and temperature are mathematical reals, not IEEE floats. The light's own randomisation stores an integer, which appears as a real with an integer value.
- The three subclasses are one class whose `extra` field names the kind. A kind-specific setter requires a device of that kind, because Python would raise `AttributeError` on any other device.
- The dashboard in `gui/dashboard.py` is a tkinter view and controller and is not part of this model. The same goes for the tkinter main loop started in `main.py`.
- The same device object may be discovered twice. The map of states then holds it once, and its list entries are stepped one after another, as `PassPerObject` states.
- The security status stays a string with the source's mixed vocabulary: "Secure" is the constructor's default, while the system's randomisation picks "secure" or "insecure". The model does not merge these into one enumeration.
- The report is a `map`, which has no key order. The Python dict keeps each id in the order it was first inserted, and the dashboard lists entries in that order. The model does not capture that order.
- The two randomisation policies stay separate, as in the source: a light's or thermostat's own method resamples the whole range, while the system's step drifts and clamps.
