/**
 * The thermostat node of node_types.py: the cached copy of one thermostat's
 * state, its refresh from the vendor snapshot, and the command handlers that
 * validate a user request before handing a one-key change to the controller.
 *
 * The Fahrenheit class and its Celsius subclass differ only in the key
 * suffix, the conversion of readings, and the increment limits; here they are
 * one class with a `unit` fixed at construction.
 *
 * Every temperature is an integer number of TENTHS of a degree.
 */
module Thermostats {
  import opened Common

  datatype Unit = Fahrenheit | Celsius {
    /** The suffix of every temperature key in the vendor payload. */
    function Suffix(): string { if Celsius? then "_c" else "_f" }
    /** The BRT/DIM increment: 1 degree F or 0.5 degree C. */
    function Step(): int { if Celsius? then 5 else 10 }
    /** Lowest setpoint BRT/DIM may reach: 50 F or 9 C. */
    function MinSetpoint(): int { if Celsius? then 90 else 500 }
    /** Highest setpoint BRT/DIM may reach: 90 F or 32 C. */
    function MaxSetpoint(): int { if Celsius? then 320 else 900 }
  }

  /**
   * The conversion applied to every temperature read or received: `int()` for
   * Fahrenheit (truncation toward zero to a whole degree), `float()` for
   * Celsius (kept as it is).
   */
  function Str2Temp(unit: Unit, tenths: int): int
  {
    if unit.Celsius? then tenths
    else if tenths >= 0 then tenths / 10 * 10
    else -((-tenths) / 10 * 10)
  }

  /**
   * The conversion applied to a command's value, which arrives as text:
   * `int()` for Fahrenheit, which raises on a value with a fraction, and
   * `float()` for Celsius.
   */
  function CommandTemp(unit: Unit, tenths: int): (t: Option<int>)
    ensures t.Some? <==> unit.Celsius? || tenths % 10 == 0
    ensures t.Some? ==> t.value == tenths
  {
    if unit.Fahrenheit? && tenths % 10 != 0 then None else Some(tenths)
  }

  /** Fahrenheit readings lose their fraction, truncated toward zero; Celsius readings are kept. */
  lemma Str2TempTruncates(unit: Unit, tenths: int)
    ensures var t := Str2Temp(unit, tenths);
      (unit.Celsius? ==> t == tenths)
      && (unit.Fahrenheit? ==> t % 10 == 0)
      && (unit.Fahrenheit? && tenths >= 0 ==> 0 <= t <= tenths < t + 10)
      && (unit.Fahrenheit? && tenths < 0 ==> t - 10 < tenths <= t <= 0)
  {
  }

  /** A vendor hvac_mode. `Unknown` carries any other mode name. */
  datatype HvacMode = Off | Heat | Cool | HeatCool | Eco | Unknown(name: string) {
    /** The mode's name in the vendor payload. */
    function Name(): string {
      match this
      case Off => "off"
      case Heat => "heat"
      case Cool => "cool"
      case HeatCool => "heat-cool"
      case Eco => "eco"
      case Unknown(n) => n
    }
  }

  /** The names the vendor API gives its hvac modes. */
  const KnownModeNames: set<string> := {"off", "heat", "cool", "heat-cool", "eco"}

  /** The mode an hvac_mode string names; an `Unknown` mode never carries a known name. */
  function ParseMode(s: string): (m: HvacMode)
    ensures m.Name() == s
    ensures m.Unknown? <==> s !in KnownModeNames
  {
    if s == "off" then Off
    else if s == "heat" then Heat
    else if s == "cool" then Cool
    else if s == "heat-cool" then HeatCool
    else if s == "eco" then Eco
    else Unknown(s)
  }

  /** Two mode strings compare equal exactly when the modes they name do. */
  lemma ParseModeInjective(s: string, t: string)
    ensures ParseMode(s) == ParseMode(t) <==> s == t
  {
    assert ParseMode(s).Name() == s && ParseMode(t).Name() == t;
  }

  /** The code published on the CLIMD driver for a vendor hvac_mode. */
  function ModeCode(mode: HvacMode): (code: int)
    ensures code == 3 <==> mode == HeatCool
    ensures code == 1 <==> mode == Heat
    ensures code == 2 <==> mode == Cool
    ensures code == 13 <==> mode == Eco
    ensures code !in {1, 2, 3, 13} ==> code == 0
  {
    match mode
    case HeatCool => 3
    case Heat => 1
    case Cool => 2
    case Eco => 13
    case _ => 0
  }

  /**
   * The hvac_mode a CLIMD mode command asks for (the NEST_MODES table), with
   * code 13 sent as "eco", the mode that the refresh publishes as 13.
   * None is the KeyError of an unknown code.
   */
  function NestMode(code: int): (mode: Option<HvacMode>)
    ensures mode.Some? <==> code in {0, 1, 2, 3, 13}
    ensures mode.Some? ==> ModeCode(mode.value) == code && !mode.value.Unknown?
  {
    if code == 0 then Some(Off)
    else if code == 1 then Some(Heat)
    else if code == 2 then Some(Cool)
    else if code == 3 then Some(HeatCool)
    else if code == 13 then Some(Eco)
    else None
  }

  /** The NEST_MODES table as the source writes it: code 13 is "away". */
  function NestModeAsWritten(code: int): (mode: Option<HvacMode>)
    ensures mode.Some? <==> code in {0, 1, 2, 3, 13}
    ensures code != 13 ==> mode == NestMode(code)
  {
    if code == 13 then Some(ParseMode("away")) else NestMode(code)
  }

  /**
   * With the table as written, asking for mode 13 sends a mode name the
   * refresh publishes as 0, so the mode command and the published mode code
   * disagree.
   */
  lemma AwayDoesNotRoundTrip()
    ensures NestModeAsWritten(13) == Some(Unknown("away"))
    ensures ModeCode(NestModeAsWritten(13).value) == 0 != 13
  {
  }

  /** Every mode other than "off" that the refresh publishes can be asked for again by its code. */
  lemma ModeCodeInverse(mode: HvacMode)
    ensures ModeCode(mode) != 0 ==> NestMode(ModeCode(mode)) == Some(mode)
  {
  }

  /** The CLIHCS activity code: 2 cooling, 1 heating, 3 fan only, 0 idle. */
  function HvacStateCode(hvacState: string, fanTimerActive: bool): (code: int)
    ensures 0 <= code <= 3
    ensures code == 2 <==> hvacState == "cooling"
    ensures code == 1 <==> hvacState == "heating"
    ensures code == 3 <==> hvacState != "cooling" && hvacState != "heating" && fanTimerActive
  {
    if hvacState == "cooling" then 2
    else if hvacState == "heating" then 1
    else if fanTimerActive then 3
    else 0
  }

  function Abs(x: int): int { if x < 0 then -x else x }

  /** The temperature fields of a thermostat subtree; each comes once per unit suffix. */
  datatype TempName =
    | AmbientTemperature | TargetTemperature | TargetTemperatureLow | TargetTemperatureHigh
    | EcoTemperatureLow | EcoTemperatureHigh | LockedTempMax | LockedTempMin

  /** A temperature key of the vendor payload: `ambient_temperature_f`, `eco_temperature_low_c`, ... */
  datatype TempKey = TempKey(name: TempName, unit: Unit)

  /** One thermostat's subtree of the vendor snapshot. */
  datatype ThermostatData = ThermostatData(
    hvacMode: string,
    hvacState: string,
    isLocked: bool,
    isOnline: bool,
    fanTimerActive: bool,
    fanTimerDuration: int,
    humidity: int,
    timeToTarget: int,
    temperatures: map<TempKey, int>)
  {
    /** The refresh reads this key: the eco pair in eco mode, the target low/high pair otherwise, and the other four always. */
    predicate ReadBy(name: TempName) {
      if ParseMode(hvacMode) == Eco then !(name == TargetTemperatureLow || name == TargetTemperatureHigh)
      else !(name == EcoTemperatureLow || name == EcoTemperatureHigh)
    }

    /** Every temperature key the refresh reads is present for this unit; the pair it skips may be missing. */
    predicate HasReadings(unit: Unit) {
      forall n: TempName :: ReadBy(n) ==> TempKey(n, unit) in temperatures
    }

    /** A converted temperature reading. */
    function Reading(unit: Unit, name: TempName): int
      requires HasReadings(unit) && ReadBy(name)
    {
      Str2Temp(unit, temperatures[TempKey(name, unit)])
    }
  }

  /** The cached fields of a thermostat node, as one value. */
  datatype Cache = Cache(
    ambientTemp: int,
    mode: HvacMode,
    sp: int,
    heatSp: int,
    coolSp: int,
    lockMin: int,
    lockMax: int,
    locked: bool,
    fanMode: int,
    fanTimer: int,
    online: bool,
    state: int)

  /** Which setpoint a BRT/DIM adjusts: the driver it republishes and the payload key it sends. */
  datatype Adjust = Adjust(heating: bool, driver: Driver, key: string)

  class Thermostat {
    const unit: Unit
    const elementId: string
    const setUrl: string

    var ambientTemp: int
    var mode: HvacMode
    var sp: int
    var heatSp: int
    var coolSp: int
    var lockMin: int
    var lockMax: int
    var locked: bool
    var fanMode: int
    var fanTimer: int
    var online: bool
    var state: int

    /** The published driver values (setDriver). */
    var drivers: map<Driver, int>
    /** The change requests handed to the controller, oldest first. */
    var outbox: seq<ChangeRequest>

    function Cached(): Cache
      reads this
    {
      Cache(ambientTemp, mode, sp, heatSp, coolSp, lockMin, lockMax, locked, fanMode, fanTimer, online, state)
    }

    /** A new node, refreshed once from its subtree, as start() does when the node is added. */
    constructor (unit: Unit, elementId: string, device: ThermostatData)
      requires device.HasReadings(unit)
      ensures this.unit == unit && this.elementId == elementId
      ensures setUrl == "/devices/thermostats/" + elementId
      ensures Cached() == Refreshed(unit, device)
      ensures drivers == map[CLITEMP := ambientTemp][CLIHUM := device.humidity][GV2 := device.timeToTarget]
        [GV1 := fanTimer][CLIMD := ModeCode(mode)]
        [CLISPH := if mode == Heat then sp else heatSp]
        [CLISPC := if mode == Cool then sp else coolSp]
        [CLIFS := fanMode][ST := if online then 1 else 0][CLIHCS := state]
      ensures outbox == []
    {
      this.unit := unit;
      this.elementId := elementId;
      setUrl := "/devices/thermostats/" + elementId;
      drivers := map[];
      outbox := [];
      new;
      Update(device);
    }

    /** The cached fields after a refresh from `d`. */
    static function Refreshed(unit: Unit, d: ThermostatData): Cache
      requires d.HasReadings(unit)
    {
      var eco := ParseMode(d.hvacMode) == Eco;
      Cache(
        d.Reading(unit, AmbientTemperature),
        ParseMode(d.hvacMode),
        d.Reading(unit, TargetTemperature),
        d.Reading(unit, if eco then EcoTemperatureLow else TargetTemperatureLow),
        d.Reading(unit, if eco then EcoTemperatureHigh else TargetTemperatureHigh),
        d.Reading(unit, LockedTempMin),
        d.Reading(unit, LockedTempMax),
        d.isLocked,
        if d.fanTimerActive then 1 else 0,
        d.fanTimerDuration,
        d.isOnline,
        HvacStateCode(d.hvacState, d.fanTimerActive))
    }

    /** Refresh the cached fields and the drivers from the node's subtree of the current snapshot. */
    method Update(d: ThermostatData)
      requires d.HasReadings(unit)
      modifies this
      ensures mode == ParseMode(d.hvacMode) && locked == d.isLocked && online == d.isOnline
      ensures sp == d.Reading(unit, TargetTemperature)
      ensures mode == Eco ==>
        heatSp == d.Reading(unit, EcoTemperatureLow) && coolSp == d.Reading(unit, EcoTemperatureHigh)
      ensures mode != Eco ==>
        heatSp == d.Reading(unit, TargetTemperatureLow) && coolSp == d.Reading(unit, TargetTemperatureHigh)
      ensures lockMin == d.Reading(unit, LockedTempMin) && lockMax == d.Reading(unit, LockedTempMax)
      ensures fanTimer == d.fanTimerDuration && fanMode == (if d.fanTimerActive then 1 else 0)
      ensures state == HvacStateCode(d.hvacState, d.fanTimerActive)
      ensures Cached() == Refreshed(unit, d)
      ensures drivers == old(drivers)[CLITEMP := ambientTemp][CLIHUM := d.humidity][GV2 := d.timeToTarget]
        [GV1 := fanTimer][CLIMD := ModeCode(mode)]
        [CLISPH := if mode == Heat then sp else heatSp]
        [CLISPC := if mode == Cool then sp else coolSp]
        [CLIFS := fanMode][ST := if online then 1 else 0][CLIHCS := state]
      ensures outbox == old(outbox)
    {
      ReadSubtree(d);
      PublishDrivers(d);
    }

    /** The field assignments of the refresh. */
    method ReadSubtree(d: ThermostatData)
      requires d.HasReadings(unit)
      modifies this`ambientTemp, this`mode, this`sp, this`heatSp, this`coolSp, this`lockMin, this`lockMax,
        this`locked, this`fanMode, this`fanTimer, this`online, this`state
      ensures Cached() == Refreshed(unit, d)
    {
      var c := Refreshed(unit, d);
      ambientTemp := c.ambientTemp;
      mode := c.mode;
      sp := c.sp;
      heatSp := c.heatSp;
      coolSp := c.coolSp;
      lockMax := c.lockMax;
      lockMin := c.lockMin;
      locked := c.locked;
      fanTimer := c.fanTimer;
      fanMode := c.fanMode;
      online := c.online;
      state := c.state;
    }

    /** The setDriver calls of the refresh, from the freshly read fields. */
    method PublishDrivers(d: ThermostatData)
      modifies this`drivers
      ensures drivers == old(drivers)[CLITEMP := ambientTemp][CLIHUM := d.humidity][GV2 := d.timeToTarget]
        [GV1 := fanTimer][CLIMD := ModeCode(mode)]
        [CLISPH := if mode == Heat then sp else heatSp]
        [CLISPC := if mode == Cool then sp else coolSp]
        [CLIFS := fanMode][ST := if online then 1 else 0][CLIHCS := state]
    {
      drivers := drivers[CLITEMP := ambientTemp];
      drivers := drivers[CLIHUM := d.humidity];
      drivers := drivers[GV2 := d.timeToTarget];
      drivers := drivers[GV1 := fanTimer];
      // the mode code; in heat or cool mode the single target temperature
      // is shown for that side
      drivers := drivers[CLIMD := ModeCode(mode)];
      drivers := drivers[CLISPH := if mode == Heat then sp else heatSp];
      drivers := drivers[CLISPC := if mode == Cool then sp else coolSp];
      drivers := drivers[CLIFS := fanMode];
      drivers := drivers[ST := if online then 1 else 0];
      drivers := drivers[CLIHCS := state];
    }

    /** True when the lock refuses the setpoint `newSp`. */
    predicate CheckLock(newSp: int): (rejected: bool)
      reads this
      ensures !locked ==> !rejected
      ensures locked && (newSp < lockMin || newSp > lockMax) ==> rejected
      ensures locked && mode == HeatCool ==> rejected
      ensures rejected ==> locked && (newSp < lockMin || newSp > lockMax || mode == HeatCool)
    {
      if locked then
        if newSp > lockMax || newSp < lockMin then true
        else mode == HeatCool
      else false
    }

    /** Set the heat setpoint (CLISPH command); `value` is the requested temperature in tenths. */
    method SetHeat(value: int) returns (h: Handled)
      modifies this`heatSp, this`sp, this`drivers, this`outbox
      ensures CommandTemp(unit, value).None? ==>
        h == Failed && Cached() == old(Cached()) && drivers == old(drivers) && outbox == old(outbox)
      ensures CommandTemp(unit, value).Some? ==>
        var v := value;
        (h == Sent <==> v != old(heatSp) && !old(CheckLock(v)) && (old(mode) == Heat || old(mode) == HeatCool))
        && (h != Sent ==> h == Refused && Cached() == old(Cached()) && drivers == old(drivers) && outbox == old(outbox))
        && (h == Sent && mode == Heat ==>
              Cached() == old(Cached()).(heatSp := v, sp := v)
              && drivers == old(drivers)[CLISPH := v]
              && outbox == old(outbox) + [ChangeRequest(setUrl, map["target_temperature" + unit.Suffix() := Temperature(v)])])
        && (h == Sent && mode == HeatCool ==>
              Cached() == old(Cached()).(heatSp := v)
              && drivers == old(drivers)[CLISPH := v]
              && outbox == old(outbox) + [ChangeRequest(setUrl, map["target_temperature_low" + unit.Suffix() := Temperature(v)])])
    {
      var parsed := CommandTemp(unit, value);
      if parsed.None? {
        return Failed;
      }
      var newSp := parsed.value;
      if newSp == heatSp {
        return Refused;
      }
      if CheckLock(newSp) {
        return Refused;
      }
      var cmd: Payload;
      if mode == Eco || mode == Off || mode == Cool {
        return Refused;
      } else if mode == Heat {
        heatSp := newSp;
        sp := newSp;
        drivers := drivers[CLISPH := heatSp];
        cmd := map["target_temperature" + unit.Suffix() := Temperature(heatSp)];
      } else if mode == HeatCool {
        heatSp := newSp;
        drivers := drivers[CLISPH := heatSp];
        cmd := map["target_temperature_low" + unit.Suffix() := Temperature(heatSp)];
      } else {
        return Refused;
      }
      outbox := outbox + [ChangeRequest(setUrl, cmd)];
      return Sent;
    }

    /** Set the cool setpoint (CLISPC command); `value` is the requested temperature in tenths. */
    method SetCool(value: int) returns (h: Handled)
      modifies this`coolSp, this`sp, this`drivers, this`outbox
      ensures CommandTemp(unit, value).None? ==>
        h == Failed && Cached() == old(Cached()) && drivers == old(drivers) && outbox == old(outbox)
      ensures CommandTemp(unit, value).Some? ==>
        var v := value;
        (h == Sent <==> v != old(coolSp) && !old(CheckLock(v)) && (old(mode) == Cool || old(mode) == HeatCool))
        && (h != Sent ==> h == Refused && Cached() == old(Cached()) && drivers == old(drivers) && outbox == old(outbox))
        && (h == Sent && mode == Cool ==>
              Cached() == old(Cached()).(coolSp := v, sp := v)
              && drivers == old(drivers)[CLISPC := v]
              && outbox == old(outbox) + [ChangeRequest(setUrl, map["target_temperature" + unit.Suffix() := Temperature(v)])])
        && (h == Sent && mode == HeatCool ==>
              Cached() == old(Cached()).(coolSp := v)
              && drivers == old(drivers)[CLISPC := v]
              && outbox == old(outbox) + [ChangeRequest(setUrl, map["target_temperature_high" + unit.Suffix() := Temperature(v)])])
    {
      var parsed := CommandTemp(unit, value);
      if parsed.None? {
        return Failed;
      }
      var newSp := parsed.value;
      if newSp == coolSp {
        return Refused;
      }
      if CheckLock(newSp) {
        return Refused;
      }
      var cmd: Payload;
      if mode == Eco || mode == Off || mode == Heat {
        return Refused;
      } else if mode == Cool {
        coolSp := newSp;
        sp := newSp;
        drivers := drivers[CLISPC := coolSp];
        cmd := map["target_temperature" + unit.Suffix() := Temperature(coolSp)];
      } else if mode == HeatCool {
        coolSp := newSp;
        drivers := drivers[CLISPC := coolSp];
        cmd := map["target_temperature_high" + unit.Suffix() := Temperature(coolSp)];
      } else {
        return Refused;
      }
      outbox := outbox + [ChangeRequest(setUrl, cmd)];
      return Sent;
    }

    /** Switch the hvac mode (CLIMD command). The cached mode waits for the next refresh. */
    method SetMode(code: int) returns (h: Handled)
      modifies this`drivers, this`outbox
      ensures NestMode(code).None? ==> h == Failed && drivers == old(drivers) && outbox == old(outbox)
      ensures NestMode(code) == Some(mode) ==> h == Refused && drivers == old(drivers) && outbox == old(outbox)
      ensures NestMode(code).Some? && NestMode(code) != Some(mode) ==>
        h == Sent && drivers == old(drivers)[CLIMD := code]
        && outbox == old(outbox) + [ChangeRequest(setUrl, map["hvac_mode" := Text(NestMode(code).value.Name())])]
    {
      var newMode := NestMode(code);
      if newMode.None? {
        return Failed;
      }
      if newMode.value == mode {
        return Refused;
      }
      drivers := drivers[CLIMD := code];
      outbox := outbox + [ChangeRequest(setUrl, map["hvac_mode" := Text(newMode.value.Name())])];
      return Sent;
    }

    /**
     * Switch the fan (CLIFS command). A request equal to the cached fan mode is
     * refused; any other request builds its payload from the undefined names
     * `true`/`false` and raises, so nothing is ever sent.
     */
    method SetFan(value: int) returns (h: Handled)
      ensures h == Refused <==> value == fanMode
      ensures h != Refused ==> h == Failed
    {
      if value == fanMode {
        return Refused;
      }
      return Failed;
    }

    /** Set the fan timer duration (SET_TIMER command). The cached timer waits for the next refresh. */
    method SetFanTimer(value: int) returns (h: Handled)
      modifies this`drivers, this`outbox
      ensures value == fanTimer ==> h == Refused && drivers == old(drivers) && outbox == old(outbox)
      ensures value != fanTimer ==>
        h == Sent && drivers == old(drivers)[GV1 := value]
        && outbox == old(outbox) + [ChangeRequest(setUrl, map["fan_timer_duration" := Number(value)])]
    {
      if value == fanTimer {
        return Refused;
      }
      drivers := drivers[GV1 := value];
      outbox := outbox + [ChangeRequest(setUrl, map["fan_timer_duration" := Number(value)])];
      return Sent;
    }

    /**
     * The setpoint a BRT/DIM adjusts. In heat-cool mode it is the heat setpoint
     * exactly when that is strictly closer to the ambient temperature; outside
     * heat, cool and heat-cool there is none.
     */
    function IncDecTarget(): (a: Option<Adjust>)
      reads this
      ensures a.Some? <==> mode == HeatCool || mode == Heat || mode == Cool
      ensures mode == HeatCool ==>
        a.Some? && (a.value.heating <==> Abs(ambientTemp - heatSp) < Abs(ambientTemp - coolSp))
        && a.value.key == (if a.value.heating then "target_temperature_low" else "target_temperature_high") + unit.Suffix()
      ensures mode == Heat ==> a == Some(Adjust(true, CLISPH, "target_temperature" + unit.Suffix()))
      ensures mode == Cool ==> a == Some(Adjust(false, CLISPC, "target_temperature" + unit.Suffix()))
      ensures a.Some? ==> a.value.driver == if a.value.heating then CLISPH else CLISPC
    {
      if mode == HeatCool then
        if Abs(ambientTemp - heatSp) < Abs(ambientTemp - coolSp) then
          Some(Adjust(true, CLISPH, "target_temperature_low" + unit.Suffix()))
        else
          Some(Adjust(false, CLISPC, "target_temperature_high" + unit.Suffix()))
      else if mode == Heat then
        Some(Adjust(true, CLISPH, "target_temperature" + unit.Suffix()))
      else if mode == Cool then
        Some(Adjust(false, CLISPC, "target_temperature" + unit.Suffix()))
      else None
    }

    /** The setpoint BRT (one step up) or DIM (one step down) asks for. */
    function Stepped(brighten: bool, a: Adjust): int
      reads this
    {
      var base := if a.heating then heatSp else coolSp;
      if brighten then base + unit.Step() else base - unit.Step()
    }

    /**
     * Step the active setpoint up (BRT) or down (DIM). Only the driver is
     * republished; the cached setpoints wait for the next refresh.
     */
    method SetIncDec(cmd: string) returns (h: Handled)
      modifies this`drivers, this`outbox
      ensures cmd != "BRT" && cmd != "DIM" ==> h == Refused
      ensures (cmd == "BRT" || cmd == "DIM") && IncDecTarget().None? ==> h == Failed
      ensures h != Sent ==> drivers == old(drivers) && outbox == old(outbox)
      ensures (cmd == "BRT" || cmd == "DIM") && IncDecTarget().Some? ==>
        var a := IncDecTarget().value;
        var v := Stepped(cmd == "BRT", a);
        (h == Sent <==> unit.MinSetpoint() <= v <= unit.MaxSetpoint() && !CheckLock(v))
        && (h != Sent ==> h == Refused)
        && (h == Sent ==>
              drivers == old(drivers)[a.driver := v]
              && outbox == old(outbox) + [ChangeRequest(setUrl, map[a.key := Temperature(v)])])
    {
      var target := IncDecTarget();
      var newSp: int;
      if cmd == "BRT" || cmd == "DIM" {
        if target.None? {
          // `heating` is unbound outside heat, cool and heat-cool
          return Failed;
        }
        newSp := Stepped(cmd == "BRT", target.value);
      } else {
        return Refused;
      }
      if newSp < unit.MinSetpoint() || newSp > unit.MaxSetpoint() {
        return Refused;
      }
      if CheckLock(newSp) {
        return Refused;
      }
      drivers := drivers[target.value.driver := newSp];
      outbox := outbox + [ChangeRequest(setUrl, map[target.value.key := Temperature(newSp)])];
      return Sent;
    }
  }
}
