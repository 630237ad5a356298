# pyHS100 device core in Dafny

This project models the part of pyHS100 that decides what a TP-Link smart bulb or
smart plug does with a request and how the command-line tool picks its target
device.

- **The bulb** (`smartbulb.dfy`, module `SmartBulbModel`):
  - the capability flags read from `sys_info`;
  - the Kelvin table and the first-match lookup of the white temperature range;
  - the light-state reads, which take their values from the top-level state while the bulb is on and from `dft_on_state` while it is off;
  - the checks of the setters and the exact `transition_light_state` payloads they send;
  - the state-information dictionary.
- **The plug** (`smartplug.dfy`, module `SmartPlugModel`):
  - relay, LED and dimmer state;
  - the colon-separated `feature` string that announces an energy meter;
  - the two requests `set_brightness` sends;
  - the choice of `on_time` on a power strip's child outlet;
  - the state-information dictionary.
- **The command-line tool** (`cli.dfy`, module `Cli`):
  - the alias lookup by repeated discovery rounds;
  - the resolution of `--host`, `--ip`, `--alias` and `--bulb/--plug/--strip` into a device handle.
- **Shared values** (`values.dfy`, module `Values`):
  - JSON-like values, errors, and the requests sent;
  - the Python behaviour the device code relies on: truthiness, `isinstance(v, int)` (which accepts `bool`), `int()`, dictionary lookup and subscripting, `str.lower`.

The devices are classes with the state they read and a `log` of every request
sent to them. Each method that reads is proved to return a specification
function of that state. Each method that sends is proved to append exactly the
requests a request function names, and nothing on an error.

A fake device applies each request to its state. The round-trip lemmas use it to
show that a getter returns what the matching setter sent:
- turn on or off, then `is_on`;
- `set_hsv`, then `get_hsv`;
- `set_color_temp`, then `get_color_temp`;
- `set_brightness`, then `get_brightness`;
- `set_led`, then `get_led`.

Discovery is an oracle. `discovery[k]` lists the devices, in the iteration order of
the reply dictionary, that answer the k-th discovery call. A call past the end of
the list finds nothing.

## Model

| member | source | states |
|---|---|---|
| Values.ToInt | pyHS100/smartbulb.py:204-207 | int() succeeds exactly on an int or bool, with its integer value; any other value raises |
| Values.KeyFlag | pyHS100/smartbulb.py:83-109 | bool(d[key]) succeeds exactly when the key is present, gives the value's truthiness, and otherwise raises KeyError for that key |
| SmartBulbModel.IsColor | pyHS100/smartbulb.py:83-90 | is_color is defined exactly when is_color is in sys_info, is its truthiness, and otherwise raises KeyError("is_color") |
| SmartBulbModel.IsDimmable | pyHS100/smartbulb.py:92-99 | is_dimmable is defined exactly when is_dimmable is in sys_info, is its truthiness, and otherwise raises KeyError("is_dimmable") |
| SmartBulbModel.IsVariableColorTemp | pyHS100/smartbulb.py:101-109 | is_variable_color_temp is defined exactly when that key is in sys_info, is its truthiness, and otherwise raises KeyError for it |
| SmartBulbModel.LightIsOn | pyHS100/smartbulb.py:273-276 | is_on is defined exactly when on_off is in the light state, and is its truthiness |
| SmartBulbModel.HasEmeter | pyHS100/smartbulb.py:286-288 | a bulb always reports an energy meter |
| SmartBulbModel.KelvinTableBounds | pyHS100/smartbulb.py:8-16 | every table range is a proper interval within 2500..9000 K |
| SmartBulbModel.FirstKelvinMatch | pyHS100/smartbulb.py:119-122 | finds the first table entry, in table order, whose pattern matches at the start of the model; none means no entry matches |
| SmartBulbModel.ValidTemperatureRange | pyHS100/smartbulb.py:111-123 | (0, 0) without variable colour temperature; otherwise (0, 0) or a range from the table, always within 2500..9000 K |
| SmartBulbModel.TemperatureRangeOfModel | pyHS100/smartbulb.py:117-123 | for a variable-temperature bulb, the range is that of the first matching entry, and (0, 0) when no entry matches |
| SmartBulbModel.KL120Ranges | pyHS100/smartbulb.py:14-15 | the escaped parentheses match literally: KL120(US) gets 2700..5000 and KL120(EU) gets 2700..6500 |
| SmartBulbModel.ActiveState | pyHS100/smartbulb.py:143-155 | the reads use the top-level state when on and dft_on_state when off |
| SmartBulbModel.HsvOf | pyHS100/smartbulb.py:135-155 | raises "Bulb does not support color." without colour; any result is hue, saturation and brightness from the state selected by on_off; on a colour bulb whose selected state (top level when on, dft_on_state when off) has the three keys, the result is exactly those values |
| SmartBulbModel.ColorTempOf | pyHS100/smartbulb.py:194-207 | raises without variable colour temperature; any result is int(color_temp) from the state selected by on_off; when that state, on or off, holds an integer color_temp, the result is exactly it |
| SmartBulbModel.BrightnessOf | pyHS100/smartbulb.py:227-240 | raises "Bulb is not dimmable." when not dimmable; any result is int(brightness) from the state selected by on_off; when that state, on or off, holds an integer brightness, the result is exactly it |
| SmartBulbModel.CheckBrightness | pyHS100/smartbulb.py:157-161 | passes exactly an integer in 0..100; anything else raises ValueError |
| SmartBulbModel.SetHsvRequest | pyHS100/smartbulb.py:163-192 | succeeds iff the bulb has colour, hue is in 0..360 and saturation and value are in 0..100; each error is the first failed check in source order; the payload is the three values plus color_temp 0 |
| SmartBulbModel.SetColorTempRequest | pyHS100/smartbulb.py:209-225 | succeeds iff the bulb supports colour temperature and temp is an integer within the valid range, ends included; a non-integer raises TypeError and an integer outside the range raises ValueError("temperature"); the payload is only color_temp |
| SmartBulbModel.UnknownModelAcceptsOnlyZero | pyHS100/smartbulb.py:117-123 | for a model the table does not know, 0 is the only colour temperature set_color_temp accepts |
| SmartBulbModel.SetBrightnessRequest | pyHS100/smartbulb.py:242-253 | succeeds iff the bulb is dimmable and brightness is an integer in 0..100; the payload is only brightness |
| SmartBulbModel.ApplyLightState | pyHS100/smartbulb.py:129-133 | the fake bulb's new state: the keys sent replace the old ones and every other key stays |
| SmartBulbModel.TurnOnOffThenIsOn | pyHS100/smartbulb.py:273-284 | after turn_on the bulb reports on; after turn_off it reports off |
| SmartBulbModel.SetHsvThenGetHsv | pyHS100/smartbulb.py:135-192 | on a bulb that is on, get_hsv after a successful set_hsv returns the values set |
| SmartBulbModel.SetColorTempThenGet | pyHS100/smartbulb.py:194-225 | on a bulb that is on, get_color_temp after a successful set_color_temp returns the temperature set |
| SmartBulbModel.SetBrightnessThenGet | pyHS100/smartbulb.py:227-253 | on a bulb that is on, get_brightness after a successful set_brightness returns the brightness set |
| SmartBulbModel.QueriesAdd | pyHS100/smartbulb.py:255-271 | two runs of light-state queries together are one run of the combined length, which is how the reads of get_state_information add up |
| SmartBulbModel.SmartBulb.constructor | pyHS100/smartbulb.py:63-81 | a new bulb holds the given state and has sent nothing |
| SmartBulbModel.SmartBulb.QueryHelper | pyHS100/smartbulb.py:125-133 | sending a request appends exactly that request to the log |
| SmartBulbModel.SmartBulb.GetLightState | pyHS100/smartbulb.py:125-127 | returns the light state and sends one get_light_state query |
| SmartBulbModel.SmartBulb.SetLightState | pyHS100/smartbulb.py:129-133 | sends one transition_light_state carrying the state |
| SmartBulbModel.SmartBulb.IsOn | pyHS100/smartbulb.py:273-276 | returns LightIsOn of the current state after one query |
| SmartBulbModel.SmartBulb.TurnOn | pyHS100/smartbulb.py:282-284 | sends exactly on_off 1 |
| SmartBulbModel.SmartBulb.TurnOff | pyHS100/smartbulb.py:278-280 | sends exactly on_off 0 |
| SmartBulbModel.SmartBulb.GetValidTemperatureRange | pyHS100/smartbulb.py:111-123 | the table scan returns ValidTemperatureRange and sends nothing |
| SmartBulbModel.SmartBulb.GetHsv | pyHS100/smartbulb.py:135-155 | returns HsvOf of the current state; sends two queries on a colour bulb and none otherwise |
| SmartBulbModel.SmartBulb.SetHsv | pyHS100/smartbulb.py:163-192 | raises the error SetHsvRequest gives and sends nothing, or sends exactly its request |
| SmartBulbModel.SmartBulb.GetColorTemp | pyHS100/smartbulb.py:194-207 | returns ColorTempOf of the current state; sends two queries when supported and none otherwise |
| SmartBulbModel.SmartBulb.SetColorTemp | pyHS100/smartbulb.py:209-225 | raises the error SetColorTempRequest gives and sends nothing, or sends exactly its request |
| SmartBulbModel.SmartBulb.GetBrightness | pyHS100/smartbulb.py:227-240 | returns BrightnessOf of the current state; sends two queries when dimmable and none otherwise |
| SmartBulbModel.SmartBulb.SetBrightness | pyHS100/smartbulb.py:242-253 | raises the error SetBrightnessRequest gives and sends nothing, or sends exactly its request |
| SmartBulbModel.WithTemperature | pyHS100/smartbulb.py:264-266 | adds the colour temperature and the valid range, and succeeds iff both reads succeed |
| SmartBulbModel.StateInformation | pyHS100/smartbulb.py:255-271 | succeeds iff every read it makes succeeds; the keys are Brightness and Is dimmable, plus the colour temperature and its range iff supported, plus HSV iff colour, each holding the matching read |
| SmartBulbModel.StateQueries | pyHS100/smartbulb.py:255-271 | the light-state queries get_state_information sends: an even number, at most six, none when the bulb is not dimmable and at least two when it is |
| SmartBulbModel.StateQueriesCount | pyHS100/smartbulb.py:255-271 | a successful get_state_information sends two queries for the brightness, plus two on a variable-colour-temperature bulb, plus two on a colour bulb |
| SmartBulbModel.SmartBulb.GetStateInformation | pyHS100/smartbulb.py:255-271 | returns StateInformation of the current state and appends exactly StateQueries light-state queries: two for each read it reaches before it returns or raises |
| SmartPlugModel.BrightnessOf | pyHS100/smartplug.py:42-54 | raises "Device is not dimmable." without a brightness key; otherwise int(brightness) |
| SmartPlugModel.DimmableExactlyWhenBrightnessSettable | pyHS100/smartplug.py:79-86 | is_dimmable (a brightness key in sys_info) holds exactly when get_brightness does not raise the not-dimmable error, and exactly when some value can be set by set_brightness |
| SmartPlugModel.IsOn | pyHS100/smartplug.py:98-104 | defined exactly when relay_state is present, and is its truthiness |
| SmartPlugModel.Led | pyHS100/smartplug.py:120-127 | the LED reports on exactly when led_off is not 1 |
| SmartPlugModel.Split | pyHS100/smartplug.py:94-96 | str.split(":") yields at least one field and no field contains a colon |
| SmartPlugModel.JoinSplit | pyHS100/smartplug.py:94-96 | joining the fields with colons gives the feature string back |
| SmartPlugModel.SplitAfterToken | pyHS100/smartplug.py:94-96 | a colon-free prefix becomes part of the first field |
| SmartPlugModel.SplitJoin | pyHS100/smartplug.py:94-96 | colon-free tokens survive a join followed by a split |
| SmartPlugModel.SplitUnique | pyHS100/smartplug.py:94-96 | the split is the only list of colon-free tokens whose join is the string |
| SmartPlugModel.HasEmeter | pyHS100/smartplug.py:88-96 | defined exactly for a string feature; true iff "ENE" is one of its colon-separated fields |
| SmartPlugModel.EmeterOfFields | pyHS100/smartplug.py:88-96 | a feature string made of colon-free fields has an energy meter iff "ENE" is one of them |
| SmartPlugModel.EmeterIsTokenMatch | pyHS100/smartplug.py:88-96 | TIM:ENE has an energy meter; TIM:ENERGY does not, because the test matches whole fields |
| SmartPlugModel.LedRequest | pyHS100/smartplug.py:129-135 | set_led sends off 0 to light the LED and off 1 to darken it |
| SmartPlugModel.SetBrightnessRequests | pyHS100/smartplug.py:56-77 | succeeds iff the plug is dimmable and value is an integer with 0 < value <= 100, sending turn-on then the dimmer request; not dimmable raises the device error, and a bad value raises ValueError |
| SmartPlugModel.OnTime | pyHS100/smartplug.py:137-150 | without a context, on_time comes from the top level; with a context, it comes from the children list |
| SmartPlugModel.ChildOnTime | pyHS100/smartplug.py:144-148 | any on_time found is that of a child whose id is the context; on_time is left unbound only when every child has an id and none is the context |
| SmartPlugModel.OnSince | pyHS100/smartplug.py:137-152 | the selected on_time in seconds; OnTime's errors pass through; a non-integer on_time raises |
| SmartPlugModel.StateInformation | pyHS100/smartplug.py:154-166 | keys are LED state and On since, plus Brightness iff dimmable, each holding the matching read; succeeds iff those reads succeed, and otherwise raises the error of the first read that fails, in the order LED, on-time, brightness |
| SmartPlugModel.NoChildSelected | pyHS100/smartplug.py:143-147 | when no child has the context as id, on_time is never bound |
| SmartPlugModel.FirstChildSelected | pyHS100/smartplug.py:143-147 | the loop stops at the first child whose id is the context and takes its on_time |
| SmartPlugModel.OnTimeSelectsFirstChild | pyHS100/smartplug.py:137-150 | with a context on a strip, on_time comes from the first child with that id, and is unbound when there is none |
| SmartPlugModel.SetLedThenGetLed | pyHS100/smartplug.py:120-135 | get_led after set_led(s) reports the truthiness of s |
| SmartPlugModel.TurnOnOffThenIsOn | pyHS100/smartplug.py:98-118 | after turn_on the plug reports on; after turn_off it reports off |
| SmartPlugModel.SetBrightnessThenGet | pyHS100/smartplug.py:42-77 | after a successful set_brightness the plug is on and reports the brightness set |
| SmartPlugModel.SmartPlug.constructor | pyHS100/smartplug.py:29-40 | a new plug holds the given state and context and has sent nothing |
| SmartPlugModel.SmartPlug.QueryHelper | pyHS100/smartplug.py:106-118 | sending a request appends exactly that request to the log |
| SmartPlugModel.SmartPlug.TurnOn | pyHS100/smartplug.py:106-111 | sends exactly set_relay_state 1 |
| SmartPlugModel.SmartPlug.TurnOff | pyHS100/smartplug.py:113-118 | sends exactly set_relay_state 0 |
| SmartPlugModel.SmartPlug.SetLed | pyHS100/smartplug.py:129-135 | sends exactly LedRequest(state) |
| SmartPlugModel.SmartPlug.SetBrightness | pyHS100/smartplug.py:56-77 | sends SetBrightnessRequests' two requests in order on success; on error sends nothing and raises |
| SmartPlugModel.SmartPlug.GetOnSince | pyHS100/smartplug.py:137-152 | the loop over the children returns OnSince of the current state |
| SmartPlugModel.SmartPlug.GetStateInformation | pyHS100/smartplug.py:154-166 | returns StateInformation of the current state |
| Cli.MatchesIgnoresCase | pyHS100/cli.py:153 | the alias test holds exactly when both aliases have the same length and agree letter by letter up to ASCII case; lower-casing the wanted alias first changes no outcome |
| Cli.FirstMatch | pyHS100/cli.py:152-155 | finds the first device of a round, in iteration order, whose alias equals the wanted one ignoring case |
| Cli.SearchFrom | pyHS100/cli.py:149-156 | the search never uses more rounds than its budget |
| Cli.SearchFromFound | pyHS100/cli.py:149-155 | a found host comes from the first round with a match and from that round's first matching device; no round is issued after it |
| Cli.SearchFromMissing | pyHS100/cli.py:149-156 | no host is found iff no budgeted round matched, and then the whole budget is used |
| Cli.AliasSearchSpec | pyHS100/cli.py:142-156 | the same, for a search from the first round |
| Cli.RangeLength | pyHS100/cli.py:149 | range(lo, hi) has hi - lo values when lo < hi, and none otherwise |
| Cli.FindHostFromAlias | pyHS100/cli.py:142-156 | the loop as written returns the host and round count of the alias search with a budget of attempts - 1 rounds |
| Cli.FindHostFromAliasFixed | pyHS100/cli.py:142-156 | the corrected loop returns the host and round count of the alias search with a budget of `attempts` rounds |
| Cli.AsWrittenRoundCount | pyHS100/cli.py:149-151 | as written, at most attempts - 1 discovery calls, none when attempts <= 1, and exactly attempts - 1 when nothing matches |
| Cli.FixedRoundCount | pyHS100/cli.py:149-151 | corrected, at most `attempts` calls, and exactly `attempts` when nothing matches |
| Cli.AsWrittenMissesThirdAttempt | pyHS100/cli.py:142-156 | with the default 3 attempts, a device that first answers in round 3 is missed as written and found by the corrected loop |
| Cli.NetworkScenarios | pyHS100/cli.py:142-156 | against two devices that always answer, "living room" is found in round 1, and "nobody" is reported missing after exactly two rounds |
| Cli.GivenHost | pyHS100/cli.py:63-64 | --host wins when given; --ip is used only when --host is absent; there is a host iff either option is given |
| Cli.AliasRounds | pyHS100/cli.py:66-73 | the lookup's discovery calls, one per round |
| Cli.LookupBudget | pyHS100/cli.py:68 | with the default of 3 attempts, the lookup may use 2 rounds as written and 3 corrected |
| Cli.Resolve | pyHS100/cli.py:53-95 | discover resolves nothing; --ip is used only when --host is absent; the alias lookup (as written or corrected, as chosen) runs iff no host is given, and an empty result stops with no device; with no host at all the full discovery runs; otherwise the handle's kind follows the flags in the order bulb, plug, strip, with single-host detection iff none is set, and state is shown iff no subcommand follows; the exact discovery calls made |
| Cli.ResolveMissesThirdRound | pyHS100/cli.py:66-73 | for `--alias "living room"` and a device that first answers in round 3, the program as written stops with no device after two rounds, and the corrected lookup finds the host in round 3 |

## Left out

- Networking, the wire protocol, asyncio and the `Discover` class are not part of this model. Each device reply is the device's state; each request sent is recorded in its log. Discovery is an oracle of rounds.
- smartdevice.py is not part of this model. `get_sys_info` is taken to return the device's cached `sys_info` and to send nothing; `_query_helper` is reduced to appending the request to the log.
- Logging, `click.echo` messages and the timeout and target of discovery are left out: they change no outcome.
- SmartPlugModel.OnSince: returns the on-time in seconds, not `now - timedelta(seconds=on_time)`, because the clock is an input the model does not have.
- SmartPlugModel.SmartPlug.GetOnSince: returns OnSince, so it leaves out the clock in the same way.
- SmartPlugModel.OnTime: a `children` value that is a dictionary or a string is approximated. An empty one leaves `on_time` unbound; a non-empty one raises TypeError. The iteration order of a dictionary's keys, and the characters of a string, are not modelled.
- Values.ToInt: `int()` of a numeric string raises ValueError in the model. Device replies carry JSON numbers, and string parsing is not modelled.
- Values.Lower: lower-cases ASCII letters only. Python's full Unicode case mapping is not modelled.
- Cli.Resolve: ends at the device handle chosen and whether state is shown. The subcommand click runs afterwards, the bulb and plug commands, and the `SmartStrip` class are not modelled. Its `corrected` parameter chooses the alias lookup: false is the program as written, with two rounds for the default 3 attempts; true is the corrected loop, with three rounds.
- The setters take their arguments as `Value` so that the `isinstance` checks can fail. Float arguments are not modelled, because `Value` has no floating-point case.

## Findings

| source | as written | input that shows it | evidently intended | confidence | as-written member | corrected member |
|---|---|---|---|---|---|---|
| pyHS100/cli.py:149-150 | `for attempt in range(1, attempts)` runs attempts - 1 discovery rounds, and none for attempts = 1, while the message announces `attempts` attempts | attempts = 3 and a device that first answers in the third round: reported as not found after two rounds | `range(1, attempts + 1)`: one round per announced attempt, "Attempt 3 of 3" included | not executed | Cli.FindHostFromAlias (shown by Cli.AsWrittenMissesThirdAttempt and Cli.AsWrittenRoundCount) | Cli.FindHostFromAliasFixed (with Cli.FixedRoundCount; Cli.Resolve with corrected = true, against the as-written Cli.Resolve with corrected = false, shown by Cli.ResolveMissesThirdRound) |
