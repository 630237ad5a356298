/** A TP-Link smart plug or wall switch: relay and LED state read from sys_info,
    dimmer brightness, the energy-meter feature token, the on-time of the plug or of
    one outlet of a strip, and the requests the plug sends. */
module SmartPlugModel {
  import opened Values

  const NotDimmable := "Device is not dimmable."
  const DimmerService := "smartlife.iot.dimmer"
  /** The feature token that announces an energy meter. */
  const EnergyFeature := "ENE"

  /** The values of the state-information dictionary. "On since" is kept as the
      on-time in seconds; the wall-clock subtraction is not modelled. */
  datatype PlugInfo = Flag(b: bool) | Seconds(n: int) | Number(n: int)

  // ---------------------------------------------------------------------------
  // Reads of sys_info

  /** A plug is dimmable exactly when its sys_info carries a brightness. */
  predicate IsDimmable(sysInfo: map<string, Value>)
  {
    "brightness" in sysInfo
  }

  /** get_brightness: raises on a plug that is not dimmable, otherwise int(brightness). */
  function BrightnessOf(sysInfo: map<string, Value>): (r: Result<int>)
    ensures !IsDimmable(sysInfo) ==> r == Err(DeviceError(NotDimmable))
    ensures r.Ok? <==> IsDimmable(sysInfo) && IsInt(sysInfo["brightness"])
    ensures r.Ok? ==> r.value == IntOf(sysInfo["brightness"])
  {
    if !IsDimmable(sysInfo) then Err(DeviceError(NotDimmable))
    else ToInt(sysInfo["brightness"])
  }

  /** is_dimmable is the gate of the brightness operations: a plug is dimmable
      exactly when get_brightness does not refuse it and some brightness can be set. */
  lemma DimmableExactlyWhenBrightnessSettable(sysInfo: map<string, Value>)
    ensures IsDimmable(sysInfo) <==> BrightnessOf(sysInfo) != Err(DeviceError(NotDimmable))
    ensures IsDimmable(sysInfo) <==> exists v :: SetBrightnessRequests(sysInfo, v).Ok?
  {
    if IsDimmable(sysInfo) {
      assert SetBrightnessRequests(sysInfo, Int(100)).Ok?;
    }
  }

  /** is_on: the relay state read as a truth value. */
  function IsOn(sysInfo: map<string, Value>): (r: Result<bool>)
    ensures r.Ok? <==> "relay_state" in sysInfo
    ensures r.Ok? ==> (r.value <==> Truthy(sysInfo["relay_state"]))
  {
    KeyFlag(sysInfo, "relay_state")
  }

  /** get_led: bool(1 - led_off), so the LED is on exactly when led_off is not 1. */
  function Led(sysInfo: map<string, Value>): (r: Result<bool>)
    ensures r.Ok? <==> "led_off" in sysInfo && IsInt(sysInfo["led_off"])
    ensures r.Ok? ==> (r.value <==> IntOf(sysInfo["led_off"]) != 1)
  {
    var off :- Lookup(sysInfo, "led_off");
    if !IsInt(off) then Err(TypeError) else Ok(1 - IntOf(off) != 0)
  }

  // ---------------------------------------------------------------------------
  // The feature string

  /** str.split(":"): the colon-separated fields of s, empty ones included. */
  function Split(s: string): (r: seq<string>)
    ensures |r| >= 1
    ensures forall k :: 0 <= k < |r| ==> ':' !in r[k]
    decreases |s|
  {
    if s == [] then [""]
    else
      var rest := Split(s[1..]);
      if s[0] == ':' then [""] + rest
      else [[s[0]] + rest[0]] + rest[1..]
  }

  /** ":".join(tokens). */
  function Join(tokens: seq<string>): string
    requires |tokens| >= 1
    decreases |tokens|
  {
    if |tokens| == 1 then tokens[0] else tokens[0] + ":" + Join(tokens[1..])
  }

  predicate ColonFree(tokens: seq<string>)
  {
    forall k :: 0 <= k < |tokens| ==> ':' !in tokens[k]
  }

  /** Splitting loses nothing: joining the fields with colons gives s back. */
  lemma {:induction false} JoinSplit(s: string)
    ensures Join(Split(s)) == s
    decreases |s|
  {
    if s != [] {
      var rest := Split(s[1..]);
      JoinSplit(s[1..]);
      if s[0] == ':' {
        assert Split(s) == [""] + rest;
        assert Join(Split(s)) == "" + ":" + Join(rest);
      } else if |rest| == 1 {
        assert Join(Split(s)) == [s[0]] + rest[0];
      } else {
        assert Join(rest) == rest[0] + ":" + Join(rest[1..]);
        assert Split(s)[1..] == rest[1..];
        assert Join(Split(s)) == ([s[0]] + rest[0]) + ":" + Join(rest[1..]);
      }
      assert s == [s[0]] + s[1..];
    }
  }

  /** A colon-free token followed by more text is the first field of the split. */
  lemma {:induction false} SplitAfterToken(t: string, u: string)
    requires ':' !in t
    ensures Split(t + u) == [t + Split(u)[0]] + Split(u)[1..]
    decreases |t|
  {
    if t != [] {
      assert (t + u)[1..] == t[1..] + u;
      assert (t + u)[0] == t[0];
      SplitAfterToken(t[1..], u);
      assert [t[0]] + (t[1..] + Split(u)[0]) == t + Split(u)[0];
    } else {
      assert t + u == u;
      assert Split(u) == [Split(u)[0]] + Split(u)[1..];
      assert t + Split(u)[0] == Split(u)[0];
    }
  }

  /** Colon-free tokens survive a join followed by a split. */
  lemma {:induction false} SplitJoin(tokens: seq<string>)
    requires |tokens| >= 1 && ColonFree(tokens)
    ensures Split(Join(tokens)) == tokens
    decreases |tokens|
  {
    var t := tokens[0];
    if |tokens| == 1 {
      SplitAfterToken(t, "");
      assert Split("") == [""];
      assert t + "" == t;
      assert Join(tokens) == t;
    } else {
      var rest := tokens[1..];
      SplitJoin(rest);
      var u := ":" + Join(rest);
      assert Join(tokens) == t + u;
      SplitAfterToken(t, u);
      assert u[0] == ':' && u[1..] == Join(rest);
      assert Split(u) == [""] + Split(Join(rest));
      assert Split(u)[0] == "" && Split(u)[1..] == rest;
      assert t + "" == t;
      assert tokens == [t] + rest;
    }
  }

  /** The fields of s are the only colon-free tokens whose join is s. */
  lemma SplitUnique(s: string, tokens: seq<string>)
    requires |tokens| >= 1 && ColonFree(tokens) && Join(tokens) == s
    ensures tokens == Split(s)
  {
    SplitJoin(tokens);
  }

  /** get_has_emeter: "ENE" is one of the colon-separated fields of feature. */
  function HasEmeter(sysInfo: map<string, Value>): (r: Result<bool>)
    ensures r.Ok? <==> "feature" in sysInfo && sysInfo["feature"].Str?
    ensures r.Ok? ==> (r.value <==> EnergyFeature in Split(sysInfo["feature"].s))
  {
    var feature :- Lookup(sysInfo, "feature");
    if !feature.Str? then Err(AttributeError("split"))
    else Ok(EnergyFeature in Split(feature.s))
  }

  /** A feature string made of colon-free fields announces an energy meter exactly
      when "ENE" is one of those fields. */
  lemma EmeterOfFields(tokens: seq<string>)
    requires |tokens| >= 1 && ColonFree(tokens)
    ensures HasEmeter(map["feature" := Str(Join(tokens))]) == Ok(EnergyFeature in tokens)
  {
    SplitJoin(tokens);
  }

  /** The feature test matches whole fields, not substrings: "ENE" inside a longer
      field does not count. */
  lemma EmeterIsTokenMatch()
    ensures HasEmeter(map["feature" := Str("TIM:ENE")]) == Ok(true)
    ensures HasEmeter(map["feature" := Str("TIM:ENERGY")]) == Ok(false)
  {
    var ene, energy := ["TIM", "ENE"], ["TIM", "ENERGY"];
    assert Join(ene) == "TIM:ENE";
    assert Join(energy) == "TIM:ENERGY";
    assert energy[1] != EnergyFeature;
    EmeterOfFields(ene);
    EmeterOfFields(energy);
  }

  // ---------------------------------------------------------------------------
  // Requests

  /** system/set_relay_state with the given state. */
  function RelayRequest(state: int): Request
  {
    Request("system", "set_relay_state", map["state" := Int(state)])
  }

  /** smartlife.iot.dimmer/set_brightness with the given value. */
  function DimmerRequest(value: Value): Request
  {
    Request(DimmerService, "set_brightness", map["brightness" := value])
  }

  /** set_led: off is 0 when the LED is to be on and 1 when it is to be off. */
  function LedRequest(state: Value): (r: Request)
    ensures r.service == "system" && r.command == "set_led_off" && r.params.Keys == {"off"}
    ensures r.params["off"] == Int(if Truthy(state) then 0 else 1)
  {
    Request("system", "set_led_off", map["off" := Int(if Truthy(state) then 0 else 1)])
  }

  /** set_brightness: the plug must be dimmable and the value an integer with
      0 < value <= 100 (0 is refused); then the relay is switched on before the
      dimmer is set, in that order, and nothing is sent on an error. */
  function SetBrightnessRequests(sysInfo: map<string, Value>, value: Value): (r: Result<seq<Request>>)
    ensures r.Ok? <==> IsDimmable(sysInfo) && IsInt(value) && 0 < IntOf(value) <= 100
    ensures !IsDimmable(sysInfo) ==> r == Err(DeviceError(NotDimmable))
    ensures IsDimmable(sysInfo) && r.Err? ==> r.error.ValueError?
    ensures r.Ok? ==> r.value == [RelayRequest(1), DimmerRequest(value)]
  {
    if !IsDimmable(sysInfo) then Err(DeviceError(NotDimmable))
    else if !IsInt(value) then Err(ValueError("type"))
    else if 0 < IntOf(value) <= 100 then Ok([RelayRequest(1), DimmerRequest(value)])
    else Err(ValueError("brightness"))
  }

  // ---------------------------------------------------------------------------
  // On-time selection

  /** The on_time of the first child, from index i on, whose id is the context; an
      UnboundLocalError when none matches. */
  function ChildOnTime(items: seq<Value>, id: string, i: nat): (r: Result<Value>)
    requires i <= |items|
    ensures r.Ok? ==>
      (exists k :: i <= k < |items| && Index(items[k], "id") == Ok(Str(id)) && Index(items[k], "on_time") == r)
    ensures r == Err(UnboundLocalError("on_time")) ==>
      (forall k :: i <= k < |items| ==> Index(items[k], "id").Ok? && Index(items[k], "id").value != Str(id))
    decreases |items| - i
  {
    if i == |items| then Err(UnboundLocalError("on_time"))
    else
      var childId :- Index(items[i], "id");
      if childId == Str(id) then Index(items[i], "on_time")
      else ChildOnTime(items, id, i + 1)
  }

  /** get_on_since up to the wall clock: the selected on_time as a number of seconds,
      a TypeError when it is not an integer. */
  function OnSince(sysInfo: map<string, Value>, context: Option<string>): (r: Result<int>)
    ensures OnTime(sysInfo, context).Err? ==> r == Err(OnTime(sysInfo, context).error)
    ensures r.Ok? <==> OnTime(sysInfo, context).Ok? && IsInt(OnTime(sysInfo, context).value)
    ensures r.Ok? ==> r.value == IntOf(OnTime(sysInfo, context).value)
  {
    var onTime :- OnTime(sysInfo, context);
    if IsInt(onTime) then Ok(IntOf(onTime)) else Err(TypeError)
  }

  /** get_state_information: the LED state and the on-time always, the brightness
      exactly when the plug is dimmable; the first failing read, in that order, is
      the error. */
  function StateInformation(sysInfo: map<string, Value>, context: Option<string>): (r: Result<map<string, PlugInfo>>)
    ensures r.Ok? ==> (r.value.Keys ==
      {"LED state", "On since"} + (if IsDimmable(sysInfo) then {"Brightness"} else {}))
    ensures r.Ok? ==> Led(sysInfo).Ok? && r.value["LED state"] == Flag(Led(sysInfo).value)
    ensures r.Ok? ==> OnSince(sysInfo, context).Ok? && r.value["On since"] == Seconds(OnSince(sysInfo, context).value)
    ensures r.Ok? && IsDimmable(sysInfo) ==> (BrightnessOf(sysInfo).Ok? &&
      r.value["Brightness"] == Number(BrightnessOf(sysInfo).value))
    ensures (Led(sysInfo).Ok? && OnSince(sysInfo, context).Ok? &&
      (IsDimmable(sysInfo) ==> BrightnessOf(sysInfo).Ok?)) ==> r.Ok?
    ensures Led(sysInfo).Err? ==> r == Err(Led(sysInfo).error)
    ensures Led(sysInfo).Ok? && OnSince(sysInfo, context).Err? ==> r == Err(OnSince(sysInfo, context).error)
    ensures (Led(sysInfo).Ok? && OnSince(sysInfo, context).Ok? && IsDimmable(sysInfo) && BrightnessOf(sysInfo).Err?) ==>
      r == Err(BrightnessOf(sysInfo).error)
  {
    var led :- Led(sysInfo);
    var onSince :- OnSince(sysInfo, context);
    var info := map["LED state" := Flag(led), "On since" := Seconds(onSince)];
    if IsDimmable(sysInfo) then
      var brightness :- BrightnessOf(sysInfo);
      Ok(info["Brightness" := Number(brightness)])
    else Ok(info)
  }

  /** The context selects a child outlet when it is a non-empty string. */
  predicate HasContext(context: Option<string>)
  {
    context.Some? && context.value != ""
  }

  /** The on_time value get_on_since selects: the top-level one without a context,
      otherwise the one of the first child whose id is the context. Iterating a
      dictionary or a string yields no child with an id: an empty one leaves on_time
      unbound, a non-empty one fails on subscripting. */
  function OnTime(sysInfo: map<string, Value>, context: Option<string>): (r: Result<Value>)
    ensures !HasContext(context) ==> r == Lookup(sysInfo, "on_time")
    ensures HasContext(context) && r.Ok? ==> "children" in sysInfo && sysInfo["children"].List?
  {
    if HasContext(context) then
      var children :- Lookup(sysInfo, "children");
      match children
      case List(items) => ChildOnTime(items, context.value, 0)
      case Obj(fields) => if fields == map[] then Err(UnboundLocalError("on_time")) else Err(TypeError)
      case Str(s) => if s == "" then Err(UnboundLocalError("on_time")) else Err(TypeError)
      case _ => Err(TypeError)
    else Lookup(sysInfo, "on_time")
  }

  /** Children that all carry an id, from index i on. */
  predicate IdentifiedFrom(items: seq<Value>, i: nat)
  {
    forall k :: i <= k < |items| ==> items[k].Obj? && "id" in items[k].fields
  }

  /** Over identified children none of which has the context as id, on_time stays unbound. */
  lemma {:induction false} NoChildSelected(items: seq<Value>, id: string, i: nat)
    requires i <= |items| && IdentifiedFrom(items, i)
    requires forall k :: i <= k < |items| ==> items[k].fields["id"] != Str(id)
    ensures ChildOnTime(items, id, i) == Err(UnboundLocalError("on_time"))
    decreases |items| - i
  {
    if i < |items| {
      NoChildSelected(items, id, i + 1);
    }
  }

  /** Over identified children, the on_time taken is that of the first child whose id
      is the context. */
  lemma {:induction false} FirstChildSelected(items: seq<Value>, id: string, i: nat, k: nat)
    requires i <= k < |items| && IdentifiedFrom(items, i)
    requires items[k].fields["id"] == Str(id)
    requires forall j :: i <= j < k ==> items[j].fields["id"] != Str(id)
    ensures ChildOnTime(items, id, i) == Index(items[k], "on_time")
    decreases k - i
  {
    if i < k {
      FirstChildSelected(items, id, i + 1, k);
    }
  }

  /** get_on_since with a context on a strip whose children all carry an id: the
      on_time of the first child whose id is the context, and on_time unbound when no
      child has it. */
  lemma OnTimeSelectsFirstChild(sysInfo: map<string, Value>, id: string, items: seq<Value>)
    requires id != ""
    requires "children" in sysInfo && sysInfo["children"] == List(items)
    requires IdentifiedFrom(items, 0)
    ensures (forall k :: 0 <= k < |items| ==> items[k].fields["id"] != Str(id)) ==>
      OnTime(sysInfo, Some(id)) == Err(UnboundLocalError("on_time"))
    ensures forall k :: (0 <= k < |items| && items[k].fields["id"] == Str(id) &&
      (forall j :: 0 <= j < k ==> items[j].fields["id"] != Str(id))) ==>
        OnTime(sysInfo, Some(id)) == Index(items[k], "on_time")
  {
    if forall k :: 0 <= k < |items| ==> items[k].fields["id"] != Str(id) {
      NoChildSelected(items, id, 0);
    }
    forall k | 0 <= k < |items| && items[k].fields["id"] == Str(id) &&
      (forall j :: 0 <= j < k ==> items[j].fields["id"] != Str(id))
      ensures OnTime(sysInfo, Some(id)) == Index(items[k], "on_time")
    {
      FirstChildSelected(items, id, 0, k);
    }
  }

  // ---------------------------------------------------------------------------
  // A fake plug that stores what it is sent into its sys_info

  function ApplyPlugRequest(sysInfo: map<string, Value>, req: Request): map<string, Value>
  {
    if req.service == "system" && req.command == "set_relay_state" && "state" in req.params then
      sysInfo["relay_state" := req.params["state"]]
    else if req.service == "system" && req.command == "set_led_off" && "off" in req.params then
      sysInfo["led_off" := req.params["off"]]
    else if req.service == DimmerService && req.command == "set_brightness" && "brightness" in req.params then
      sysInfo["brightness" := req.params["brightness"]]
    else sysInfo
  }

  function ApplyPlugRequests(sysInfo: map<string, Value>, reqs: seq<Request>): map<string, Value>
    decreases |reqs|
  {
    if reqs == [] then sysInfo else ApplyPlugRequests(ApplyPlugRequest(sysInfo, reqs[0]), reqs[1..])
  }

  /** get_led after set_led(s) reports s (read as a truth value). */
  lemma SetLedThenGetLed(sysInfo: map<string, Value>, state: Value)
    ensures Led(ApplyPlugRequest(sysInfo, LedRequest(state))) == Ok(Truthy(state))
  {
  }

  /** turn_on makes the fake plug report on, turn_off makes it report off. */
  lemma TurnOnOffThenIsOn(sysInfo: map<string, Value>)
    ensures IsOn(ApplyPlugRequest(sysInfo, RelayRequest(1))) == Ok(true)
    ensures IsOn(ApplyPlugRequest(sysInfo, RelayRequest(0))) == Ok(false)
  {
  }

  /** After a successful set_brightness the fake plug is on and reports the
      brightness that was set. */
  lemma SetBrightnessThenGet(sysInfo: map<string, Value>, value: Value)
    requires SetBrightnessRequests(sysInfo, value).Ok?
    ensures IsOn(ApplyPlugRequests(sysInfo, SetBrightnessRequests(sysInfo, value).value)) == Ok(true)
    ensures BrightnessOf(ApplyPlugRequests(sysInfo, SetBrightnessRequests(sysInfo, value).value)) == Ok(IntOf(value))
  {
    var reqs := SetBrightnessRequests(sysInfo, value).value;
    var after := ApplyPlugRequests(sysInfo, reqs);
    var on := ApplyPlugRequest(sysInfo, RelayRequest(1));
    assert reqs[0] == RelayRequest(1) && reqs[1..] == [DimmerRequest(value)];
    assert after == ApplyPlugRequests(on, [DimmerRequest(value)]);
    assert [DimmerRequest(value)][1..] == [];
    assert after == ApplyPlugRequest(on, DimmerRequest(value));
  }

  // ---------------------------------------------------------------------------
  // The plug object

  class SmartPlug {
    var sysInfo: map<string, Value>
    /** The child id this handle addresses on a strip, if any. */
    var context: Option<string>
    /** Every request sent to the plug, oldest first. */
    var log: seq<Request>

    constructor (sysInfo: map<string, Value>, context: Option<string>)
      ensures this.sysInfo == sysInfo && this.context == context && log == []
    {
      this.sysInfo := sysInfo;
      this.context := context;
      log := [];
    }

    /** _query_helper: send one request. */
    method QueryHelper(request: Request)
      modifies this`log
      ensures log == old(log) + [request]
    {
      log := log + [request];
    }

    method TurnOn()
      modifies this`log
      ensures log == old(log) + [RelayRequest(1)]
    {
      QueryHelper(RelayRequest(1));
    }

    method TurnOff()
      modifies this`log
      ensures log == old(log) + [RelayRequest(0)]
    {
      QueryHelper(RelayRequest(0));
    }

    method SetLed(state: Value)
      modifies this`log
      ensures log == old(log) + [LedRequest(state)]
    {
      QueryHelper(LedRequest(state));
    }

    method SetBrightness(value: Value) returns (r: Result<()>)
      modifies this`log
      ensures SetBrightnessRequests(sysInfo, value).Ok? ==>
        r == Ok(()) && log == old(log) + SetBrightnessRequests(sysInfo, value).value
      ensures SetBrightnessRequests(sysInfo, value).Err? ==>
        r == Err(SetBrightnessRequests(sysInfo, value).error) && log == old(log)
    {
      if !IsDimmable(sysInfo) {
        return Err(DeviceError(NotDimmable));
      }
      if !IsInt(value) {
        return Err(ValueError("type"));
      } else if 0 < IntOf(value) <= 100 {
        TurnOn();
        QueryHelper(DimmerRequest(value));
        r := Ok(());
      } else {
        return Err(ValueError("brightness"));
      }
    }

    /** get_on_since, up to the wall clock: the selected on_time in seconds. */
    method GetOnSince() returns (r: Result<int>)
      ensures r == OnSince(sysInfo, context)
    {
      var onTime: Result<Value>;
      if HasContext(context) {
        var id := context.value;
        var children :- Lookup(sysInfo, "children");
        match children {
          case List(items) =>
            onTime := Err(UnboundLocalError("on_time"));
            var i := 0;
            while i < |items|
              invariant 0 <= i <= |items|
              invariant onTime == Err(UnboundLocalError("on_time"))
              invariant ChildOnTime(items, id, i) == ChildOnTime(items, id, 0)
            {
              var childId :- Index(items[i], "id");
              if childId == Str(id) {
                onTime := Index(items[i], "on_time");
                break;
              }
              i := i + 1;
            }
          case Obj(fields) =>
            onTime := if fields == map[] then Err(UnboundLocalError("on_time")) else Err(TypeError);
          case Str(s) =>
            onTime := if s == "" then Err(UnboundLocalError("on_time")) else Err(TypeError);
          case _ =>
            onTime := Err(TypeError);
        }
      } else {
        onTime := Lookup(sysInfo, "on_time");
      }
      var seconds :- onTime;
      if !IsInt(seconds) {
        return Err(TypeError);
      }
      r := Ok(IntOf(seconds));
    }

    /** get_state_information, read through the methods above. */
    method GetStateInformation() returns (r: Result<map<string, PlugInfo>>)
      ensures r == StateInformation(sysInfo, context)
    {
      var led :- Led(sysInfo);
      var onSince :- GetOnSince();
      var info := map["LED state" := Flag(led), "On since" := Seconds(onSince)];
      if IsDimmable(sysInfo) {
        var brightness :- BrightnessOf(sysInfo);
        info := info["Brightness" := Number(brightness)];
      }
      r := Ok(info);
    }
  }
}
