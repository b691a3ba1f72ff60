# SCNR clean-room coordinator, modelled in Dafny

This project models the core of the SCNR Home Assistant integration, which
drives a SwitchBot "Floor Cleaning Robot S10" through the vendor cloud. The
core has two parts.

- The coordinator (`SCNRDataUpdateCoordinator`) logs in with a password grant,
  lists the account's devices and keeps the mac of the first device whose name
  contains "Floor Cleaning Robot S10". It then sends the clean-rooms command
  (function 1001) for one room.
- The clean button (`SCNRCleanButton.async_press`) reads five setting entities
  from the host's state machine. If any is missing it gives up. Otherwise it
  coerces three of them with `int(float(s))` and calls `clean_room` once.

Files, one module each:

- `python.dfy` (`Python`): decoded JSON values, where JSON `null` is Python's
  `None`. It also holds the exceptions the code can raise, and the Python
  built-ins the code relies on: `d[key]`, `x in y`, `str()` in an f-string and
  `int(float(s))`.
- `const.dfy` (`Const`): the values of `const.py`, and the initial values of
  the setting entities.
- `http.dfy` (`Http`): an abstract transport. A `Transport` object answers each
  request through an injected function. It draws request ids from an injected
  `uuid4` supply and records every request in a ghost log.
- `coordinator.dfy` (`Coordinator`): the class `ScnrCoordinator` has the
  fields `accessToken` and `deviceId`, which start as `None`. Its `uuid` and
  configuration are `const`, so Dafny itself guarantees they are assigned
  once. It also holds the pure request builders and reply readers. Each method
  is specified by a pure step function over a `Session` value (the two
  fields). The step function returns the result, the new fields, the requests
  sent and the ids drawn. The lemmas are stated about these step functions.
- `button.dfy` (`Button`): the press decision, as a function from the device
  id and the host states to "missing entity", "raises" or "dispatch this
  call". It also holds the press as a method on a coordinator.
- `scenario.dfy` (`Scenario`): one complete press against a fixed vendor.

The code has no retry or poll loop, no range check of water, fan and times,
and no typed errors. A press gives up at once when an entity is missing.
Values are forwarded unchecked. A device list without a match leaves the
device id as it was, with no error. Failures are uncaught Python exceptions.

In `coordinator.py:38-41`, the two calls of the refresh are indented deeper
than the commented-out `if` lines above them, so the file as shown would not
parse. The model follows the evident intent: login, then device lookup, both
unconditional.

## Model

| member | source | states |
|---|---|---|
| Coordinator.ScnrCoordinator.constructor | custom_components/scnr/coordinator.py:20-27 | A new coordinator has no access token and no device id (both `None`). It holds the given installation uuid and configuration, and both are `const`: no method can reassign them. |
| Coordinator.ScnrCoordinator.Login | custom_components/scnr/coordinator.py:44-75 | Login draws one request id. It sends one login request, unless the configuration lacks a credential (KeyError, nothing sent). It stores `body.access_token` of the reply and leaves the device id alone. A reply without that field, or a failed exchange, raises and leaves the token unchanged. |
| Coordinator.ScnrCoordinator.GetDevice | custom_components/scnr/coordinator.py:77-98 | The loop over `Items`, proved against `DeviceStep`. It sends one device-list request with the current token. It stores the mac of the first entry whose name contains the model fragment. Without a match the device id stays as it was, and an entry that raises stops the lookup with the field unchanged. |
| Coordinator.ScnrCoordinator.Refresh | custom_components/scnr/coordinator.py:36-42 | The refresh runs login, then (if login did not raise) device lookup, and returns the empty dict. It equals `RefreshStep`. |
| Coordinator.ScnrCoordinator.CleanRoom | custom_components/scnr/coordinator.py:100-148 | `clean_room` refreshes, then sends one invoke request with the refreshed token and device id. It returns the decoded reply unchanged. It equals `CleanRoomStep`. |
| Coordinator.TokenOf | custom_components/scnr/coordinator.py:70-73 | The login reply yields a token exactly when it is a dict with a dict `body` holding `access_token`, and the token is that value. A failed exchange raises a network error. |
| Coordinator.LoginRequestShape | custom_components/scnr/coordinator.py:46-67 | The login request exists exactly when both credentials are configured. It goes to the login URL with an empty `authorization` and the installation uuid as header, and has `deviceInfo.deviceId = uuid`. It also has `grantType = "password"`, `verifyCode = ""` and the configured username and password. |
| Coordinator.SelectDeviceFirstMatch | custom_components/scnr/coordinator.py:95-98 | First match wins. If every entry before position k is passed over and entry k's name contains the fragment, the lookup yields entry k's `device_mac`, or its KeyError. Later entries do not matter. |
| Coordinator.SelectDeviceFound | custom_components/scnr/coordinator.py:95-98 | Conversely, a found mac is the `device_mac` of some matching entry k, and every entry before k is passed over. |
| Coordinator.SelectDeviceNone | custom_components/scnr/coordinator.py:95-98 | The lookup finds nothing, without raising, exactly when every entry has a readable name that does not contain the fragment. Both directions are proved. |
| Coordinator.DeviceStepFirstMatch | custom_components/scnr/coordinator.py:77-98 | When the listed devices' first match is entry k, device lookup succeeds. It sets the device id to entry k's mac and keeps the token. |
| Coordinator.DeviceStepNoMatch | custom_components/scnr/coordinator.py:77-98 | When no listed device matches, device lookup succeeds without raising and leaves both fields as they were. The device id may be `None` or a previous value. |
| Coordinator.RefreshLoginThenLookup | custom_components/scnr/coordinator.py:36-42 | The requests a refresh sends, its result and the token it stores do not depend on the fields it starts from (no caching). The device id it leaves does: an id from before survives a list with no match. It sends at most two requests: the login request first, then the device-list request, which is sent only if the login reply held a token and is authorized by that token. The login is sent exactly when both credentials are configured. The refresh succeeds, returning the empty dict, exactly when the login and then the device lookup both succeed. |
| Coordinator.CleanRoomInvokesOnce | custom_components/scnr/coordinator.py:100-148 | A clean cycle sends at most one command, and sends it exactly when the refresh succeeded. The command is the last request and carries the refreshed token and device id, whether or not a device matched. Read back, it holds the notify topic and the five arguments unchanged. The cycle's result is the decoded reply. |
| Coordinator.CleanRoomAuthorization | custom_components/scnr/coordinator.py:49-113 | Every request of a clean cycle carries the installation uuid. The login carries an empty authorization. The device list and the command carry the coordinator's current token. |
| Coordinator.InvokeBodyRoundTrip | custom_components/scnr/coordinator.py:114-142 | Reading the clean command back gives exactly the device, the topic and the five arguments it was built from. The reading checks function 1001, `"0" = "clean_rooms"`, `force_order = true`, exactly one room, and a mode block `{fan_level, times, type, water_level}` that is the same at command level and in the room entry. |
| Coordinator.ArgsRoundTrip | custom_components/scnr/coordinator.py:123-140 | The `params["1"]` block reads back as the call it was built from: `force_order` set, one room with the given `room_id`, and the same mode block at both levels. |
| Coordinator.ModeBlockRoundTrip | custom_components/scnr/coordinator.py:125-130 | The mode block `{fan_level, times, type, water_level}` reads back as fan, times, mode and water, each in its own field. |
| Coordinator.NotifyUrlInjective | custom_components/scnr/coordinator.py:117-120 | The topic `v1_1/<uuid>/APP_HA_<uuid>/funcResp` determines the installation uuid it embeds: equal topics have equal uuids. |
| Python.HasSubstringIff | custom_components/scnr/coordinator.py:96 | The model of Python's `in` on strings holds exactly when the fragment occurs at some position of the name. |
| Python.TruncatedFloatOfDecimal | custom_components/scnr/button.py:50-52 | On the exact decimal reading, `int(float(str(n)))` is n for every integer n, so "1" becomes 1. Python's rounding above 2^53 is not modelled (see "## Left out"). |
| Python.TruncatedFloatDropsFraction | custom_components/scnr/button.py:50-52 | On the exact decimal reading, `int(float(str(n) + "." + digits))` is n: "2.0" becomes 2, and "-1.5" becomes -1 (truncation toward zero). Python's rounding to a double first is not modelled (see "## Left out"). |
| Python.TruncatedFloatOfFloatText | custom_components/scnr/button.py:50-52 | On the exact decimal reading, a whole number written as a float, `str(n) + ".0"`, coerces back to n. |
| Python.TruncatedFloatNeedsDigit | custom_components/scnr/button.py:50-52 | Text without any digit, such as "abc", makes the coercion raise. |
| Button.StateKeyInjective | custom_components/scnr/button.py:37-41 | The lookup key is `"scnr." + str(device id) + "_" + suffix`. Different suffixes give different keys, so the five settings are five distinct entities. |
| Button.Decide | custom_components/scnr/button.py:35-53 | When a press dispatches, all five entities have a state. Room and mode are passed as their state strings, unchanged. Water, fan and times are the `int(float(...))` of their state strings. |
| Button.DecideMissing | custom_components/scnr/button.py:37-45 | A press gives up, sending nothing, exactly when at least one of the five entity ids has no state. Both directions are proved. |
| Button.DecideRaisesFirst | custom_components/scnr/button.py:47-52 | A press that raises has all five entities. The exception comes from the first of water, fan and times whose coercion fails, in argument order, and the ones before it coerced. |
| Button.DecideDispatches | custom_components/scnr/button.py:43-53 | The converse of the dispatch case: with all five entities present and the three numeric states coercible, the press calls `clean_room` with exactly those values. |
| Button.PressIsCleanCycle | custom_components/scnr/button.py:47-53 | A press that dispatches is exactly one clean cycle with the decided arguments. It sends the same requests and leaves the same fields; only the reply is dropped. |
| Button.DecideForwardsSettings | custom_components/scnr/button.py:47-53 | With the five values held under the button's keys and the numbers as float text ("2.0"), the call is `clean_room(room, mode, water, fan, times)` in that parameter order, with the integers the floats stand for. |
| Button.DefaultSettingsDispatch | custom_components/scnr/select.py:36 | When the host holds the settings' initial values ("ROOM_000", "sweep" and "1" for each number) under the button's keys, a press dispatches `("ROOM_000", "sweep", 1, 1, 1)`. |
| Button.NonNumericSettingRaises | custom_components/scnr/button.py:50-52 | If any numeric setting has no digit, the press raises while evaluating the arguments, so `clean_room` is not called. |
| Button.PressAtMostOnce | custom_components/scnr/button.py:37-53 | One attempt per press: at most three requests and at most one clean command. A press that does not dispatch sends nothing and changes no field. A command that is sent carries the decided arguments, unchecked. |
| Button.Press | custom_components/scnr/button.py:35-53 | The press on a coordinator equals `PressStep`. It decides from the device id the coordinator holds before the press. Then it either returns, raises, or runs one clean cycle and discards its reply. |
| Scenario.ScenarioDevice | custom_components/scnr/coordinator.py:95-98 | Given a hub and then "Floor Cleaning Robot S10 Pro", the lookup picks the second device's mac. |
| Scenario.ScenarioCycle | custom_components/scnr/coordinator.py:100-148 | The scenario's clean cycle succeeds. It sends login, device list and one command, and ends with token "T1" and the robot's mac. |
| Scenario.ScenarioPress | custom_components/scnr/button.py:47-53 | The scenario press: the login grants "T1", the robot is found, and the settings are "ROOM_003", "sweep_mop", "2.0", "4.0", "1.0". These values are held under the button's keys. The press succeeds with exactly three requests and one command, and the command is `clean_room("ROOM_003", "sweep_mop", 2, 4, 1)` sent to the robot with token "T1". |

## Left out

- HTTP mechanics: aiohttp sessions, JSON encoding, status codes and the 30 s timeout. A reply is a decoded document or a failure. Status codes are never checked in the code, so an error status with a JSON body is read like any other reply.
- The vendor and `uuid4`. These are injected functions (`Env`). Each reply is a function of its request. The uniqueness of generated uuids is not claimed.
- Home Assistant scheduling (the 5-minute update interval), async/await, debug logging (`_debug`), and overlapping presses. The model is sequential.
- JSON floating-point numbers are not part of `Json`.
- Python `int(float(s))` accepts more than the model's `[+-]digits[.digits]`: surrounding whitespace, exponents, underscores, "inf" and "nan". It also accepts non-ASCII decimal digits (Arabic-Indic "١" coerces to 1). The model raises `ValueError` for these extra forms. Python's `float()` also rounds the text to the nearest double before `int()` truncates, so values beyond 2^53 and fractions with more digits than a double holds can differ: `int(float("1.99999999999999999"))` is 2 in Python. The model truncates the decimal text exactly and gives 1. Short float text such as "2.0" is exact in both. Text without any decimal digit, ASCII or not, raises in both, although Python raises `OverflowError` for "inf".
- Python.TruncatedFloatDropsFraction: stated on the exact decimal text. Python rounds the text to a double first, so a fraction long enough to round up to the next integer (`"0.99999999999999999"` gives 1 in Python) is truncated differently. The lemma holds in Python whenever that rounding does not reach the next integer, as for short text such as "2.0", "2.1" or "-1.5".
- Python.Str: `str()` of a device id that is a JSON list or dict is a placeholder, not Python's repr. Such a device id only changes the button's lookup keys.
- Button keys versus entity ids: the press looks up `scnr.<device id>_<suffix>` (`button.py:37-41`). The room, mode and number entities take their entity ids from Home Assistant, which starts them with their platform (`select.`, `number.`); `entity.py:18` sets only their unique id `<device id>_<suffix>`. The model does not relate the two. Its lemmas are about a state map that holds the values under the button's keys, which the real entities as written would not provide, so a real press would give up at `button.py:43-45`.
- The host's `states.get` retries a lower-cased entity id. The model looks up the key exactly as built.
- Exception classes are reduced to what decides control flow. `TypeError` carries no message, and aiohttp errors, timeouts and undecodable bodies are one `NetworkError`.
- Header values are `Json`, so a token of any JSON type is sent as decoded. The model does not say whether aiohttp would accept a non-string header.
- The number and select entities (`number.py`, `select.py`), the configuration flow, entity registration and the room list are not part of this model. Only their initial values are used, as constants.
