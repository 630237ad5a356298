/** A TP-Link smart bulb: the light-state reads that depend on whether the bulb is
    on, the range checks of the setters, the Kelvin range table, and the exact
    light-state payloads the bulb sends. */
module SmartBulbModel {
  import opened Values

  const LightService := "smartlife.iot.smartbulb.lightingservice"
  const NoColorSupport := "Bulb does not support color."
  const NoColorTempSupport := "Bulb does not support colortemp."
  const NotDimmable := "Bulb is not dimmable."

  /** A white temperature range in Kelvin, (minimum, maximum). */
  datatype TempRange = TempRange(min: int, max: int)

  /** One row of the Kelvin table: a model pattern and the range of the models it matches. */
  datatype KelvinEntry = KelvinEntry(pattern: string, range: TempRange)

  /** The Kelvin table in its iteration order. Every pattern is matched at the start of
      the model name; the escaped parentheses of the two KL120 patterns stand for
      literal parentheses, so each pattern is a literal prefix. */
  const TplinkKelvin: seq<KelvinEntry> := [
    KelvinEntry("LB130", TempRange(2500, 9000)),
    KelvinEntry("LB120", TempRange(2700, 6500)),
    KelvinEntry("LB230", TempRange(2500, 9000)),
    KelvinEntry("KB130", TempRange(2500, 9000)),
    KelvinEntry("KL130", TempRange(2500, 9000)),
    KelvinEntry("KL120(EU)", TempRange(2700, 6500)),
    KelvinEntry("KL120(US)", TempRange(2700, 5000))
  ]

  /** Hue, saturation and value as the bulb reports them. */
  datatype Hsv = Hsv(hue: Value, saturation: Value, value: Value)

  /** The values of the state-information dictionary. */
  datatype BulbInfo = Number(n: int) | Flag(b: bool) | Range(range: TempRange) | Color(hsv: Hsv)

  /** The request that queries the light state. */
  const LightQuery := Request(LightService, "get_light_state", map[])

  /** The request that sets (part of) the light state. */
  function LightStateRequest(state: map<string, Value>): Request
  {
    Request(LightService, "transition_light_state", state)
  }

  const TurnOnState: map<string, Value> := map["on_off" := Int(1)]
  const TurnOffState: map<string, Value> := map["on_off" := Int(0)]

  // The capability flags: bool(sys_info[key]), a KeyError when the key is missing.

  function IsColor(sysInfo: map<string, Value>): (r: Result<bool>)
    ensures r.Ok? <==> "is_color" in sysInfo
    ensures r.Ok? ==> (r.value <==> Truthy(sysInfo["is_color"]))
    ensures r.Err? ==> r.error == KeyError("is_color")
  {
    KeyFlag(sysInfo, "is_color")
  }

  function IsDimmable(sysInfo: map<string, Value>): (r: Result<bool>)
    ensures r.Ok? <==> "is_dimmable" in sysInfo
    ensures r.Ok? ==> (r.value <==> Truthy(sysInfo["is_dimmable"]))
    ensures r.Err? ==> r.error == KeyError("is_dimmable")
  {
    KeyFlag(sysInfo, "is_dimmable")
  }

  function IsVariableColorTemp(sysInfo: map<string, Value>): (r: Result<bool>)
    ensures r.Ok? <==> "is_variable_color_temp" in sysInfo
    ensures r.Ok? ==> (r.value <==> Truthy(sysInfo["is_variable_color_temp"]))
    ensures r.Err? ==> r.error == KeyError("is_variable_color_temp")
  {
    KeyFlag(sysInfo, "is_variable_color_temp")
  }

  /** A bulb is on when on_off is set in its light state. */
  function LightIsOn(ls: map<string, Value>): (r: Result<bool>)
    ensures r.Ok? <==> "on_off" in ls
    ensures r.Ok? ==> (r.value <==> Truthy(ls["on_off"]))
  {
    KeyFlag(ls, "on_off")
  }

  /** The bulb always reports an energy meter, whatever its sys_info says. */
  function HasEmeter(sysInfo: map<string, Value>): (r: bool)
    ensures r
  {
    true
  }

  // ---------------------------------------------------------------------------
  // The Kelvin table

  /** Every range in the table is a proper interval within 2500..9000 K. */
  lemma KelvinTableBounds()
    ensures forall k :: 0 <= k < |TplinkKelvin| ==>
      2500 <= TplinkKelvin[k].range.min < TplinkKelvin[k].range.max <= 9000
  {
  }

  /** The index of the first entry, from i on in table order, whose pattern
      matches at the start of the model name. */
  function FirstKelvinMatch(table: seq<KelvinEntry>, model: string, i: nat): (r: Option<nat>)
    requires i <= |table|
    ensures r.Some? ==> i <= r.value < |table| && table[r.value].pattern <= model
    ensures r.Some? ==> forall j :: i <= j < r.value ==> !(table[j].pattern <= model)
    ensures r.None? ==> forall j :: i <= j < |table| ==> !(table[j].pattern <= model)
    decreases |table| - i
  {
    if i == |table| then None
    else if table[i].pattern <= model then Some(i)
    else FirstKelvinMatch(table, model, i + 1)
  }

  /** The white temperature range the bulb accepts: (0, 0) for a bulb without variable
      colour temperature or an unknown model, otherwise the range of the first table
      entry that matches the model. */
  function ValidTemperatureRange(sysInfo: map<string, Value>): (r: Result<TempRange>)
    ensures IsVariableColorTemp(sysInfo) == Ok(false) ==> r == Ok(TempRange(0, 0))
    ensures r.Ok? ==> (r.value == TempRange(0, 0) ||
      exists k :: 0 <= k < |TplinkKelvin| && r.value == TplinkKelvin[k].range)
    ensures r.Ok? ==> r.value == TempRange(0, 0) || 2500 <= r.value.min < r.value.max <= 9000
  {
    var vct :- IsVariableColorTemp(sysInfo);
    if !vct then Ok(TempRange(0, 0))
    else
      var model :- Lookup(sysInfo, "model");
      if !model.Str? then Err(TypeError)
      else match FirstKelvinMatch(TplinkKelvin, model.s, 0)
        case Some(k) => KelvinTableBounds(); Ok(TplinkKelvin[k].range)
        case None => Ok(TempRange(0, 0))
  }

  /** For a variable-colour-temperature bulb whose model is a string, the range is that
      of the first matching entry in table order, and (0, 0) when none matches. */
  lemma TemperatureRangeOfModel(sysInfo: map<string, Value>, model: string)
    requires IsVariableColorTemp(sysInfo) == Ok(true)
    requires "model" in sysInfo && sysInfo["model"] == Str(model)
    ensures forall k :: (0 <= k < |TplinkKelvin| && TplinkKelvin[k].pattern <= model &&
      (forall j :: 0 <= j < k ==> !(TplinkKelvin[j].pattern <= model))) ==>
        ValidTemperatureRange(sysInfo) == Ok(TplinkKelvin[k].range)
    ensures (forall k :: 0 <= k < |TplinkKelvin| ==> !(TplinkKelvin[k].pattern <= model)) ==>
      ValidTemperatureRange(sysInfo) == Ok(TempRange(0, 0))
  {
    var m := FirstKelvinMatch(TplinkKelvin, model, 0);
    if m.Some? {
      forall k | 0 <= k < |TplinkKelvin| && TplinkKelvin[k].pattern <= model &&
        (forall j :: 0 <= j < k ==> !(TplinkKelvin[j].pattern <= model))
        ensures k == m.value
      {
      }
    }
  }

  /** The two KL120 variants are told apart by their literal parenthesised suffix. */
  lemma KL120Ranges()
    ensures ValidTemperatureRange(map["is_variable_color_temp" := Bool(true), "model" := Str("KL120(US)")])
      == Ok(TempRange(2700, 5000))
    ensures ValidTemperatureRange(map["is_variable_color_temp" := Bool(true), "model" := Str("KL120(EU)")])
      == Ok(TempRange(2700, 6500))
  {
    var us, eu := "KL120(US)", "KL120(EU)";
    forall k | 0 <= k < 5 ensures !(TplinkKelvin[k].pattern <= us) && !(TplinkKelvin[k].pattern <= eu) {
      assert TplinkKelvin[k].pattern[1] != us[1] || TplinkKelvin[k].pattern[3] != us[3];
    }
    assert TplinkKelvin[5].pattern <= eu;
    assert TplinkKelvin[5].pattern[7] != us[7];
    assert TplinkKelvin[6].pattern <= us;
    TemperatureRangeOfModel(map["is_variable_color_temp" := Bool(true), "model" := Str(us)], us);
    TemperatureRangeOfModel(map["is_variable_color_temp" := Bool(true), "model" := Str(eu)], eu);
  }

  // ---------------------------------------------------------------------------
  // Reads that depend on whether the bulb is on

  predicate HasDefaultState(ls: map<string, Value>)
  {
    "dft_on_state" in ls && ls["dft_on_state"].Obj?
  }

  /** The part of the light state a read takes its values from: the top level while
      the bulb is on, dft_on_state while it is off. */
  function ActiveState(ls: map<string, Value>): (r: Result<map<string, Value>>)
    ensures LightIsOn(ls) == Ok(true) ==> r == Ok(ls)
    ensures LightIsOn(ls) == Ok(false) ==> (r.Ok? <==> HasDefaultState(ls))
    ensures LightIsOn(ls) == Ok(false) && r.Ok? ==> r.value == ls["dft_on_state"].fields
    ensures r.Ok? ==> LightIsOn(ls).Ok?
  {
    var on :- LightIsOn(ls);
    if on then Ok(ls)
    else
      var dft :- Lookup(ls, "dft_on_state");
      if dft.Obj? then Ok(dft.fields) else Err(TypeError)
  }

  /** d[key] holds the integer n as int() reads it. */
  predicate HoldsInt(d: map<string, Value>, key: string, n: int)
  {
    key in d && IsInt(d[key]) && IntOf(d[key]) == n
  }

  /** get_hsv: fails on a bulb without colour; otherwise hue, saturation and brightness
      from the top-level state when the bulb is on and from dft_on_state when it is off. */
  function HsvOf(sysInfo: map<string, Value>, ls: map<string, Value>): (r: Result<Hsv>)
    ensures IsColor(sysInfo) == Ok(false) ==> r == Err(DeviceError(NoColorSupport))
    ensures r.Ok? ==> IsColor(sysInfo) == Ok(true) && LightIsOn(ls).Ok?
    ensures r.Ok? && LightIsOn(ls) == Ok(true) ==>
      "hue" in ls && "saturation" in ls && "brightness" in ls &&
      r.value == Hsv(ls["hue"], ls["saturation"], ls["brightness"])
    ensures r.Ok? && LightIsOn(ls) == Ok(false) ==>
      HasDefaultState(ls) &&
      var dft := ls["dft_on_state"].fields;
      "hue" in dft && "saturation" in dft && "brightness" in dft &&
      r.value == Hsv(dft["hue"], dft["saturation"], dft["brightness"])
    ensures (IsColor(sysInfo) == Ok(true) && LightIsOn(ls) == Ok(true) &&
      "hue" in ls && "saturation" in ls && "brightness" in ls) ==> r.Ok?
    ensures (IsColor(sysInfo) == Ok(true) && ActiveState(ls).Ok? &&
      "hue" in ActiveState(ls).value && "saturation" in ActiveState(ls).value && "brightness" in ActiveState(ls).value) ==>
      r == Ok(Hsv(ActiveState(ls).value["hue"], ActiveState(ls).value["saturation"], ActiveState(ls).value["brightness"]))
  {
    var color :- IsColor(sysInfo);
    if !color then Err(DeviceError(NoColorSupport))
    else
      var src :- ActiveState(ls);
      var hue :- Lookup(src, "hue");
      var saturation :- Lookup(src, "saturation");
      var value :- Lookup(src, "brightness");
      Ok(Hsv(hue, saturation, value))
  }

  /** get_color_temp: fails on a bulb without variable colour temperature; otherwise
      int(color_temp) from the part of the state selected by on_off. */
  function ColorTempOf(sysInfo: map<string, Value>, ls: map<string, Value>): (r: Result<int>)
    ensures IsVariableColorTemp(sysInfo) == Ok(false) ==> r == Err(DeviceError(NoColorTempSupport))
    ensures r.Ok? ==> IsVariableColorTemp(sysInfo) == Ok(true) && LightIsOn(ls).Ok?
    ensures r.Ok? && LightIsOn(ls) == Ok(true) ==> HoldsInt(ls, "color_temp", r.value)
    ensures r.Ok? && LightIsOn(ls) == Ok(false) ==>
      HasDefaultState(ls) && HoldsInt(ls["dft_on_state"].fields, "color_temp", r.value)
    ensures (IsVariableColorTemp(sysInfo) == Ok(true) && LightIsOn(ls) == Ok(true) &&
      "color_temp" in ls && IsInt(ls["color_temp"])) ==> r.Ok?
    ensures (IsVariableColorTemp(sysInfo) == Ok(true) && ActiveState(ls).Ok? &&
      "color_temp" in ActiveState(ls).value && IsInt(ActiveState(ls).value["color_temp"])) ==>
      r == Ok(IntOf(ActiveState(ls).value["color_temp"]))
  {
    var vct :- IsVariableColorTemp(sysInfo);
    if !vct then Err(DeviceError(NoColorTempSupport))
    else
      var src :- ActiveState(ls);
      var temp :- Lookup(src, "color_temp");
      ToInt(temp)
  }

  /** get_brightness: fails on a bulb that is not dimmable; otherwise int(brightness)
      from the part of the state selected by on_off. */
  function BrightnessOf(sysInfo: map<string, Value>, ls: map<string, Value>): (r: Result<int>)
    ensures IsDimmable(sysInfo) == Ok(false) ==> r == Err(DeviceError(NotDimmable))
    ensures r.Ok? ==> IsDimmable(sysInfo) == Ok(true) && LightIsOn(ls).Ok?
    ensures r.Ok? && LightIsOn(ls) == Ok(true) ==> HoldsInt(ls, "brightness", r.value)
    ensures r.Ok? && LightIsOn(ls) == Ok(false) ==>
      HasDefaultState(ls) && HoldsInt(ls["dft_on_state"].fields, "brightness", r.value)
    ensures (IsDimmable(sysInfo) == Ok(true) && LightIsOn(ls) == Ok(true) &&
      "brightness" in ls && IsInt(ls["brightness"])) ==> r.Ok?
    ensures (IsDimmable(sysInfo) == Ok(true) && ActiveState(ls).Ok? &&
      "brightness" in ActiveState(ls).value && IsInt(ActiveState(ls).value["brightness"])) ==>
      r == Ok(IntOf(ActiveState(ls).value["brightness"]))
  {
    var dimmable :- IsDimmable(sysInfo);
    if !dimmable then Err(DeviceError(NotDimmable))
    else
      var src :- ActiveState(ls);
      var b :- Lookup(src, "brightness");
      ToInt(b)
  }

  // ---------------------------------------------------------------------------
  // Setters: the one request each sends, or the error it raises first

  /** _raise_for_invalid_brightness: an integer in 0..100 passes, anything else is a ValueError. */
  function CheckBrightness(value: Value): (r: Result<()>)
    ensures r.Ok? <==> IsInt(value) && 0 <= IntOf(value) <= 100
    ensures r.Err? ==> r.error == ValueError("brightness")
  {
    if InRange(value, 0, 100) then Ok(()) else Err(ValueError("brightness"))
  }

  /** set_hsv: the colour check, then hue, saturation and value checked in that order;
      on success exactly one transition_light_state request carrying the three values
      and color_temp 0. */
  function SetHsvRequest(sysInfo: map<string, Value>, hue: Value, saturation: Value, value: Value): (r: Result<Request>)
    ensures r.Ok? <==> (IsColor(sysInfo) == Ok(true) &&
      InRange(hue, 0, 360) && InRange(saturation, 0, 100) && InRange(value, 0, 100))
    ensures IsColor(sysInfo) == Ok(false) ==> r == Err(DeviceError(NoColorSupport))
    ensures IsColor(sysInfo) == Ok(true) && !InRange(hue, 0, 360) ==> r == Err(ValueError("hue"))
    ensures IsColor(sysInfo) == Ok(true) && InRange(hue, 0, 360) && !InRange(saturation, 0, 100) ==>
      r == Err(ValueError("saturation"))
    ensures (IsColor(sysInfo) == Ok(true) && InRange(hue, 0, 360) && InRange(saturation, 0, 100) &&
      !InRange(value, 0, 100)) ==> r == Err(ValueError("brightness"))
    ensures r.Ok? ==> r.value == LightStateRequest(
      map["hue" := hue, "saturation" := saturation, "brightness" := value, "color_temp" := Int(0)])
  {
    var color :- IsColor(sysInfo);
    if !color then Err(DeviceError(NoColorSupport))
    else if !InRange(hue, 0, 360) then Err(ValueError("hue"))
    else if !InRange(saturation, 0, 100) then Err(ValueError("saturation"))
    else
      var _ :- CheckBrightness(value);
      Ok(LightStateRequest(map["hue" := hue, "saturation" := saturation, "brightness" := value, "color_temp" := Int(0)]))
  }

  /** set_color_temp: the bulb must support colour temperature, and temp must lie in
      the valid range, both ends included; on success only color_temp is sent. */
  function SetColorTempRequest(sysInfo: map<string, Value>, temp: Value): (r: Result<Request>)
    ensures r.Ok? <==> (IsVariableColorTemp(sysInfo) == Ok(true) && ValidTemperatureRange(sysInfo).Ok? &&
      IsInt(temp) && ValidTemperatureRange(sysInfo).value.min <= IntOf(temp) <= ValidTemperatureRange(sysInfo).value.max)
    ensures IsVariableColorTemp(sysInfo) == Ok(false) ==> r == Err(DeviceError(NoColorTempSupport))
    ensures (IsVariableColorTemp(sysInfo) == Ok(true) && ValidTemperatureRange(sysInfo).Ok? && !IsInt(temp)) ==>
      r == Err(TypeError)
    ensures (IsVariableColorTemp(sysInfo) == Ok(true) && ValidTemperatureRange(sysInfo).Ok? && IsInt(temp) &&
      !(ValidTemperatureRange(sysInfo).value.min <= IntOf(temp) <= ValidTemperatureRange(sysInfo).value.max)) ==>
      r == Err(ValueError("temperature"))
    ensures r.Ok? ==> r.value == LightStateRequest(map["color_temp" := temp])
  {
    var vct :- IsVariableColorTemp(sysInfo);
    if !vct then Err(DeviceError(NoColorTempSupport))
    else
      var range :- ValidTemperatureRange(sysInfo);
      if !IsInt(temp) then Err(TypeError)
      else if IntOf(temp) < range.min || IntOf(temp) > range.max then Err(ValueError("temperature"))
      else Ok(LightStateRequest(map["color_temp" := temp]))
  }

  /** With a model the table does not know, the range is (0, 0) and 0 is the only
      colour temperature accepted. */
  lemma UnknownModelAcceptsOnlyZero(sysInfo: map<string, Value>, model: string, t: int)
    requires IsVariableColorTemp(sysInfo) == Ok(true)
    requires "model" in sysInfo && sysInfo["model"] == Str(model)
    requires forall k :: 0 <= k < |TplinkKelvin| ==> !(TplinkKelvin[k].pattern <= model)
    ensures SetColorTempRequest(sysInfo, Int(t)).Ok? <==> t == 0
  {
    TemperatureRangeOfModel(sysInfo, model);
  }

  /** set_brightness: the bulb must be dimmable and the value pass the brightness
      check; on success only brightness is sent. */
  function SetBrightnessRequest(sysInfo: map<string, Value>, brightness: Value): (r: Result<Request>)
    ensures r.Ok? <==> IsDimmable(sysInfo) == Ok(true) && InRange(brightness, 0, 100)
    ensures IsDimmable(sysInfo) == Ok(false) ==> r == Err(DeviceError(NotDimmable))
    ensures IsDimmable(sysInfo) == Ok(true) && !InRange(brightness, 0, 100) ==> r == Err(ValueError("brightness"))
    ensures r.Ok? ==> r.value == LightStateRequest(map["brightness" := brightness])
  {
    var dimmable :- IsDimmable(sysInfo);
    if !dimmable then Err(DeviceError(NotDimmable))
    else
      var _ :- CheckBrightness(brightness);
      Ok(LightStateRequest(map["brightness" := brightness]))
  }

  // ---------------------------------------------------------------------------
  // A fake bulb that applies every transition_light_state it receives

  /** The light state of a fake bulb after it applies a transition: the keys sent
      replace the old ones, everything else stays. */
  function ApplyLightState(ls: map<string, Value>, state: map<string, Value>): (r: map<string, Value>)
    ensures r.Keys == ls.Keys + state.Keys
    ensures forall k :: k in state ==> r[k] == state[k]
    ensures forall k :: k in ls && k !in state ==> r[k] == ls[k]
  {
    ls + state
  }

  /** turn_on makes the fake bulb report on, turn_off makes it report off. */
  lemma TurnOnOffThenIsOn(ls: map<string, Value>)
    ensures LightIsOn(ApplyLightState(ls, TurnOnState)) == Ok(true)
    ensures LightIsOn(ApplyLightState(ls, TurnOffState)) == Ok(false)
  {
  }

  /** On a bulb that is on, get_hsv after a successful set_hsv returns what was set. */
  lemma SetHsvThenGetHsv(sysInfo: map<string, Value>, ls: map<string, Value>, hue: Value, saturation: Value, value: Value)
    requires SetHsvRequest(sysInfo, hue, saturation, value).Ok?
    requires LightIsOn(ls) == Ok(true)
    ensures HsvOf(sysInfo, ApplyLightState(ls, SetHsvRequest(sysInfo, hue, saturation, value).value.params))
      == Ok(Hsv(hue, saturation, value))
  {
  }

  /** On a bulb that is on, get_color_temp after a successful set_color_temp returns
      the temperature that was set. */
  lemma SetColorTempThenGet(sysInfo: map<string, Value>, ls: map<string, Value>, temp: Value)
    requires SetColorTempRequest(sysInfo, temp).Ok?
    requires LightIsOn(ls) == Ok(true)
    ensures ColorTempOf(sysInfo, ApplyLightState(ls, SetColorTempRequest(sysInfo, temp).value.params))
      == Ok(IntOf(temp))
  {
  }

  /** On a bulb that is on, get_brightness after a successful set_brightness returns
      the brightness that was set. */
  lemma SetBrightnessThenGet(sysInfo: map<string, Value>, ls: map<string, Value>, brightness: Value)
    requires SetBrightnessRequest(sysInfo, brightness).Ok?
    requires LightIsOn(ls) == Ok(true)
    ensures BrightnessOf(sysInfo, ApplyLightState(ls, SetBrightnessRequest(sysInfo, brightness).value.params))
      == Ok(IntOf(brightness))
  {
  }

  // ---------------------------------------------------------------------------
  // The state-information dictionary

  /** The colour-temperature entries added for a variable-colour-temperature bulb. */
  function WithTemperature(sysInfo: map<string, Value>, ls: map<string, Value>, info: map<string, BulbInfo>): (r: Result<map<string, BulbInfo>>)
    ensures r.Ok? <==> ColorTempOf(sysInfo, ls).Ok? && ValidTemperatureRange(sysInfo).Ok?
    ensures r.Ok? ==> r.value == info["Color temperature" := Number(ColorTempOf(sysInfo, ls).value)]
      ["Valid temperature range" := Range(ValidTemperatureRange(sysInfo).value)]
  {
    var temp :- ColorTempOf(sysInfo, ls);
    var range :- ValidTemperatureRange(sysInfo);
    Ok(info["Color temperature" := Number(temp)]["Valid temperature range" := Range(range)])
  }

  /** get_state_information: brightness and dimmability always (so it raises on a
      bulb that is not dimmable), colour temperature and its range for a
      variable-colour-temperature bulb, HSV for a colour bulb. */
  function StateInformation(sysInfo: map<string, Value>, ls: map<string, Value>): (r: Result<map<string, BulbInfo>>)
    ensures r.Ok? <==>
      BrightnessOf(sysInfo, ls).Ok? && IsVariableColorTemp(sysInfo).Ok? &&
      (IsVariableColorTemp(sysInfo) == Ok(true) ==>
        ColorTempOf(sysInfo, ls).Ok? && ValidTemperatureRange(sysInfo).Ok?) &&
      IsColor(sysInfo).Ok? &&
      (IsColor(sysInfo) == Ok(true) ==> HsvOf(sysInfo, ls).Ok?)
    ensures r.Ok? ==> IsDimmable(sysInfo) == Ok(true)
    ensures r.Ok? ==> (r.value.Keys ==
      {"Brightness", "Is dimmable"} +
      (if IsVariableColorTemp(sysInfo) == Ok(true) then {"Color temperature", "Valid temperature range"} else {}) +
      (if IsColor(sysInfo) == Ok(true) then {"HSV"} else {}))
    ensures r.Ok? ==> r.value["Brightness"] == Number(BrightnessOf(sysInfo, ls).value)
    ensures r.Ok? ==> r.value["Is dimmable"] == Flag(true)
    ensures r.Ok? && IsVariableColorTemp(sysInfo) == Ok(true) ==>
      r.value["Color temperature"] == Number(ColorTempOf(sysInfo, ls).value) &&
      r.value["Valid temperature range"] == Range(ValidTemperatureRange(sysInfo).value)
    ensures r.Ok? && IsColor(sysInfo) == Ok(true) ==> r.value["HSV"] == Color(HsvOf(sysInfo, ls).value)
  {
    var brightness :- BrightnessOf(sysInfo, ls);
    var info := map["Brightness" := Number(brightness), "Is dimmable" := Flag(true)];
    var vct :- IsVariableColorTemp(sysInfo);
    var info :- if vct then WithTemperature(sysInfo, ls, info) else Ok(info);
    var color :- IsColor(sysInfo);
    if color then
      var hsv :- HsvOf(sysInfo, ls);
      Ok(info["HSV" := Color(hsv)])
    else
      Ok(info)
  }

  // ---------------------------------------------------------------------------
  // The bulb object

  /** n get_light_state queries. */
  function Queries(n: nat): (r: seq<Request>)
    ensures |r| == n && forall i :: 0 <= i < n ==> r[i] == LightQuery
  {
    seq(n, _ => LightQuery)
  }

  lemma QueriesAdd(a: nat, b: nat)
    ensures Queries(a) + Queries(b) == Queries(a + b)
  {
    assert forall i :: 0 <= i < a + b ==> (Queries(a) + Queries(b))[i] == LightQuery;
  }

  /** The requests a setter sends: the one request when it succeeds, none when it raises. */
  function Sent(r: Result<Request>): seq<Request>
  {
    if r.Ok? then [r.value] else []
  }

  /** What a setter returns: nothing, or the error it raised. */
  function Outcome(r: Result<Request>): Result<()>
  {
    if r.Ok? then Ok(()) else Err(r.error)
  }

  /** The light-state queries get_state_information sends before it returns or raises:
      two for each of the brightness, colour-temperature and HSV reads it reaches
      (each read queries the light state once itself and once more through is_on). */
  function StateQueries(sysInfo: map<string, Value>, ls: map<string, Value>): (n: nat)
    ensures n % 2 == 0 && n <= 6
    ensures IsDimmable(sysInfo) != Ok(true) ==> n == 0
    ensures IsDimmable(sysInfo) == Ok(true) ==> n >= 2
  {
    if IsDimmable(sysInfo) != Ok(true) then 0
    else if BrightnessOf(sysInfo, ls).Err? || IsVariableColorTemp(sysInfo).Err? then 2
    else if IsVariableColorTemp(sysInfo) == Ok(true) &&
      (ColorTempOf(sysInfo, ls).Err? || ValidTemperatureRange(sysInfo).Err?) then 4
    else
      2 + (if IsVariableColorTemp(sysInfo) == Ok(true) then 2 else 0) +
      (if IsColor(sysInfo) == Ok(true) then 2 else 0)
  }

  /** A successful get_state_information sends two queries for the brightness, two more
      on a variable-colour-temperature bulb and two more on a colour bulb. */
  lemma StateQueriesCount(sysInfo: map<string, Value>, ls: map<string, Value>)
    requires StateInformation(sysInfo, ls).Ok?
    ensures StateQueries(sysInfo, ls) ==
      2 + (if IsVariableColorTemp(sysInfo) == Ok(true) then 2 else 0) + (if IsColor(sysInfo) == Ok(true) then 2 else 0)
  {
  }

  class SmartBulb {
    var sysInfo: map<string, Value>
    var lightState: map<string, Value>
    /** Every request sent to the bulb, oldest first. */
    var log: seq<Request>

    constructor (sysInfo: map<string, Value>, lightState: map<string, Value>)
      ensures this.sysInfo == sysInfo && this.lightState == lightState && log == []
    {
      this.sysInfo := sysInfo;
      this.lightState := lightState;
      log := [];
    }

    /** _query_helper: send one request. */
    method QueryHelper(request: Request)
      modifies this`log
      ensures log == old(log) + [request]
    {
      log := log + [request];
    }

    method GetLightState() returns (ls: map<string, Value>)
      modifies this`log
      ensures ls == lightState
      ensures log == old(log) + [LightQuery]
    {
      QueryHelper(LightQuery);
      ls := lightState;
    }

    method SetLightState(state: map<string, Value>)
      modifies this`log
      ensures log == old(log) + [LightStateRequest(state)]
    {
      QueryHelper(LightStateRequest(state));
    }

    method IsOn() returns (r: Result<bool>)
      modifies this`log
      ensures r == LightIsOn(lightState)
      ensures log == old(log) + [LightQuery]
    {
      var ls := GetLightState();
      r := KeyFlag(ls, "on_off");
    }

    method TurnOn()
      modifies this`log
      ensures log == old(log) + [LightStateRequest(TurnOnState)]
    {
      SetLightState(map["on_off" := Int(1)]);
    }

    method TurnOff()
      modifies this`log
      ensures log == old(log) + [LightStateRequest(TurnOffState)]
    {
      SetLightState(map["on_off" := Int(0)]);
    }

    /** get_valid_temperature_range: a first-match scan of the Kelvin table. */
    method GetValidTemperatureRange() returns (r: Result<TempRange>)
      ensures r == ValidTemperatureRange(sysInfo)
    {
      var vct :- IsVariableColorTemp(sysInfo);
      if !vct {
        return Ok(TempRange(0, 0));
      }
      var i := 0;
      while i < |TplinkKelvin|
        invariant 0 <= i <= |TplinkKelvin|
        invariant i > 0 ==> ("model" in sysInfo && sysInfo["model"].Str? &&
          FirstKelvinMatch(TplinkKelvin, sysInfo["model"].s, 0) == FirstKelvinMatch(TplinkKelvin, sysInfo["model"].s, i))
      {
        var model :- Lookup(sysInfo, "model");
        if !model.Str? {
          return Err(TypeError);
        }
        if TplinkKelvin[i].pattern <= model.s {
          return Ok(TplinkKelvin[i].range);
        }
        i := i + 1;
      }
      return Ok(TempRange(0, 0));
    }

    method GetHsv() returns (r: Result<Hsv>)
      modifies this`log
      ensures r == HsvOf(sysInfo, lightState)
      ensures log == old(log) + Queries(if IsColor(sysInfo) == Ok(true) then 2 else 0)
    {
      var color :- IsColor(sysInfo);
      if !color {
        return Err(DeviceError(NoColorSupport));
      }
      var ls := GetLightState();
      var on :- IsOn();
      var src := ls;
      if !on {
        var dft :- Lookup(ls, "dft_on_state");
        if !dft.Obj? {
          return Err(TypeError);
        }
        src := dft.fields;
      }
      var hue :- Lookup(src, "hue");
      var saturation :- Lookup(src, "saturation");
      var value :- Lookup(src, "brightness");
      r := Ok(Hsv(hue, saturation, value));
    }

    method SetHsv(hue: Value, saturation: Value, value: Value) returns (r: Result<()>)
      modifies this`log
      ensures r == Outcome(SetHsvRequest(sysInfo, hue, saturation, value))
      ensures log == old(log) + Sent(SetHsvRequest(sysInfo, hue, saturation, value))
    {
      var color :- IsColor(sysInfo);
      if !color {
        return Err(DeviceError(NoColorSupport));
      }
      if !IsInt(hue) || !(0 <= IntOf(hue) <= 360) {
        return Err(ValueError("hue"));
      }
      if !IsInt(saturation) || !(0 <= IntOf(saturation) <= 100) {
        return Err(ValueError("saturation"));
      }
      var _ :- CheckBrightness(value);
      var state := map["hue" := hue, "saturation" := saturation, "brightness" := value, "color_temp" := Int(0)];
      SetLightState(state);
      r := Ok(());
    }

    method GetColorTemp() returns (r: Result<int>)
      modifies this`log
      ensures r == ColorTempOf(sysInfo, lightState)
      ensures log == old(log) + Queries(if IsVariableColorTemp(sysInfo) == Ok(true) then 2 else 0)
    {
      var vct :- IsVariableColorTemp(sysInfo);
      if !vct {
        return Err(DeviceError(NoColorTempSupport));
      }
      var ls := GetLightState();
      var on :- IsOn();
      if !on {
        var dft :- Lookup(ls, "dft_on_state");
        if !dft.Obj? {
          return Err(TypeError);
        }
        var temp :- Lookup(dft.fields, "color_temp");
        r := ToInt(temp);
      } else {
        var temp :- Lookup(ls, "color_temp");
        r := ToInt(temp);
      }
    }

    method SetColorTemp(temp: Value) returns (r: Result<()>)
      modifies this`log
      ensures r == Outcome(SetColorTempRequest(sysInfo, temp))
      ensures log == old(log) + Sent(SetColorTempRequest(sysInfo, temp))
    {
      var vct :- IsVariableColorTemp(sysInfo);
      if !vct {
        return Err(DeviceError(NoColorTempSupport));
      }
      var range :- GetValidTemperatureRange();
      if !IsInt(temp) {
        return Err(TypeError);
      }
      if IntOf(temp) < range.min || IntOf(temp) > range.max {
        return Err(ValueError("temperature"));
      }
      SetLightState(map["color_temp" := temp]);
      r := Ok(());
    }

    method GetBrightness() returns (r: Result<int>)
      modifies this`log
      ensures r == BrightnessOf(sysInfo, lightState)
      ensures log == old(log) + Queries(if IsDimmable(sysInfo) == Ok(true) then 2 else 0)
    {
      var dimmable :- IsDimmable(sysInfo);
      if !dimmable {
        return Err(DeviceError(NotDimmable));
      }
      var ls := GetLightState();
      var on :- IsOn();
      if !on {
        var dft :- Lookup(ls, "dft_on_state");
        if !dft.Obj? {
          return Err(TypeError);
        }
        var b :- Lookup(dft.fields, "brightness");
        r := ToInt(b);
      } else {
        var b :- Lookup(ls, "brightness");
        r := ToInt(b);
      }
    }

    method SetBrightness(brightness: Value) returns (r: Result<()>)
      modifies this`log
      ensures r == Outcome(SetBrightnessRequest(sysInfo, brightness))
      ensures log == old(log) + Sent(SetBrightnessRequest(sysInfo, brightness))
    {
      var dimmable :- IsDimmable(sysInfo);
      if !dimmable {
        return Err(DeviceError(NotDimmable));
      }
      var _ :- CheckBrightness(brightness);
      SetLightState(map["brightness" := brightness]);
      r := Ok(());
    }

    /** get_state_information: the reads StateInformation describes, made in the
        source's order; it sends only light-state queries. */
    method GetStateInformation() returns (r: Result<map<string, BulbInfo>>)
      modifies this`log
      ensures r == StateInformation(sysInfo, lightState)
      ensures log == old(log) + Queries(StateQueries(sysInfo, lightState))
    {
      var brightness :- GetBrightness();
      // get_brightness succeeded, so the second is_dimmable read cannot fail
      var dimmable := IsDimmable(sysInfo).value;
      var info := map["Brightness" := Number(brightness), "Is dimmable" := Flag(dimmable)];
      var vct :- IsVariableColorTemp(sysInfo);
      if vct {
        QueriesAdd(2, 2);
        var temp :- GetColorTemp();
        info := info["Color temperature" := Number(temp)];
        var range :- GetValidTemperatureRange();
        info := info["Valid temperature range" := Range(range)];
      }
      var color :- IsColor(sysInfo);
      if color {
        QueriesAdd(2 + (if vct then 2 else 0), 2);
        var hsv :- GetHsv();
        info := info["HSV" := Color(hsv)];
      }
      r := Ok(info);
    }
  }
}
