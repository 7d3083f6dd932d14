/** The two parsers of a device's parameter list -- the dashboard's (dashboard/mttl_telemetry.py) and the
    relay's (relay/rules/99-default.py) -- and the commands both must be able to read back. */
module Telemetry {
  import opened Options
  import opened Text

  // ---- parameters -------------------------------------------------------------

  /** A selector: 0 is the whole strip, 1 to 4 an outlet. */
  type Sel = n: nat | n < 5

  datatype Command =
    | PowerEvent(sel: Sel) | PowerSet(sel: Sel)
    | StatusReport(sel: Sel) | StatusEvent(sel: Sel)
    | MeterCurrent | MeterAccumulated
    | ConfigEvent(sel: Sel) | ConfigSet(sel: Sel) | ConfigReport(sel: Sel)
    | DeviceStatus | AlarmEvent | Unrecognised

  datatype Key = Switch(n: Sel) | Meter02(n: Sel) | Meter00(n: Sel) | Setting(n: Sel) | Event(n: Sel) | Ssid | Rssi

  /** One element of parameters[]: its command, and the text of each field it carries. */
  datatype Param = Param(command: Command, fields: map<Key, string>)

  /** int(text, 16) and int(text); which texts they accept is left open, both parsers use the same. */
  datatype Numerals = Numerals(hex: string -> Option<int>, dec: string -> Option<int>)

  function Field(p: Param, key: Key): Option<string> {
    if key in p.fields then Some(p.fields[key]) else None
  }

  function SwitchBool(value: Option<string>): Option<bool> {
    var raw := Upper(Strip(value.GetOr("")));
    if raw == "00" then Some(false) else if raw == "FF" then Some(true) else None
  }

  function HexField(num: Numerals, p: Param, key: Key): Option<int> {
    if key in p.fields then num.hex(p.fields[key]) else None
  }

  datatype Cutoff = Cutoff(centiwatts: nat, enabled: bool)

  predicate IsSettingText(s: string) {
    |s| == 8 && AllHex(s)
  }

  datatype AlarmName = Named(name: string) | UnknownCode(raw: int)
  datatype Alarm = Alarm(raw: int, event: AlarmName, state: AlarmName)

  // ---- the dashboard's tables and decoders ------------------------------------------

  function DashboardAlarmEvent(raw: int): AlarmName {
    match raw
    case 0x00 => Named("normal")
    case 0x42 => Named("overheat_trip")
    case 0x44 => Named("overheat_warning")
    case 0x46 => Named("overheat_recovery")
    case 0x80 => Named("overload_recovery")
    case 0x86 => Named("overload_trip")
    case 0x88 => Named("overload_warning")
    case _ => UnknownCode(raw)
  }

  function DashboardAlarmState(raw: int): AlarmName {
    match raw
    case 0x00 => Named("normal")
    case 0x42 => Named("overheat_trip")
    case 0x44 => Named("overheat_warning")
    case 0x46 => Named("normal")
    case 0x80 => Named("normal")
    case 0x86 => Named("overload_trip")
    case 0x88 => Named("overload_warning")
    case _ => UnknownCode(raw)
  }

  function DashboardAlarm(raw: int): Alarm {
    Alarm(raw, DashboardAlarmEvent(raw), DashboardAlarmState(raw))
  }

  datatype Idle = Idle(standby: bool, active: bool)

  function DashboardIdle(raw: int): Idle {
    Idle(raw == 0, raw == 1)
  }

  /** The dashboard takes any enable byte other than 01 for disabled. */
  function DashboardCutoff(text: string): Option<Cutoff> {
    var s := Upper(Strip(text));
    if IsSettingText(s) then Some(Cutoff(HexValue(s[..6]), s[6..] == "01")) else None
  }

  // ---- the relay's tables and decoders -----------------------------------------------

  function RelayAlarmEvent(raw: int): AlarmName {
    match raw
    case 0x00 => Named("normal")
    case 0x42 => Named("overheat_trip")
    case 0x44 => Named("overheat_warning")
    case 0x46 => Named("overheat_recovery")
    case 0x80 => Named("overload_recovery")
    case 0x86 => Named("overload_trip")
    case 0x88 => Named("overload_warning")
    case _ => UnknownCode(raw)
  }

  /** A recovery is an event; as a state it is normal again. */
  function RelayAlarmState(raw: int): AlarmName {
    match raw
    case 0x00 => Named("normal")
    case 0x42 => Named("overheat_trip")
    case 0x44 => Named("overheat_warning")
    case 0x46 => Named("normal")
    case 0x80 => Named("normal")
    case 0x86 => Named("overload_trip")
    case 0x88 => Named("overload_warning")
    case _ => UnknownCode(raw)
  }

  function RelayAlarm(raw: int): Alarm {
    Alarm(raw, RelayAlarmEvent(raw), RelayAlarmState(raw))
  }

  datatype IdleName = OnStandby | InUse | UnknownIdle(raw: int)

  datatype IdleState = IdleState(raw: int, state: IdleName, active: bool, standby: bool)

  function RelayIdle(raw: int): IdleState {
    IdleState(raw, if raw == 0 then OnStandby else if raw == 1 then InUse else UnknownIdle(raw), raw == 1, raw == 0)
  }

  /** The relay keeps the text beside what it says. */
  datatype CutoffRecord = CutoffRecord(raw: string, centiwatts: nat, enabled: bool)

  /** The relay refuses an enable byte other than 00 and 01. */
  function RelayCutoff(text: string): Option<CutoffRecord> {
    var s := Upper(Strip(text));
    if IsSettingText(s) && HexValue(s[6..]) <= 1 then Some(CutoffRecord(s, HexValue(s[..6]), HexValue(s[6..]) == 1))
    else None
  }

  /** How a parser reads a raw alarm code, a setting text and a raw standby code. */
  datatype Decoders<!A, !C, !S> = Decoders(alarm: int -> A, cutoff: string -> Option<C>, idle: int -> S)

  const DASHBOARD: Decoders<Alarm, Cutoff, Idle> := Decoders(DashboardAlarm, DashboardCutoff, DashboardIdle)
  const RELAY: Decoders<Alarm, CutoffRecord, IdleState> := Decoders(RelayAlarm, RelayCutoff, RelayIdle)

  // ---- what one parameter says about one selector ----------------------------------

  predicate IsStatus(c: Command) {
    c.StatusReport? || c.StatusEvent?
  }

  predicate IsSwitching(c: Command) {
    c.PowerEvent? || c.PowerSet? || IsStatus(c)
  }

  predicate IsConfig(c: Command) {
    c.ConfigEvent? || c.ConfigSet? || c.ConfigReport?
  }

  /** The physical All button reports POWER_EVENT, which speaks for every outlet. */
  function PowerSays(p: Param, n: Sel): Option<bool> {
    if IsSwitching(p.command) && (p.command.sel == n || p.command == PowerEvent(0))
    then SwitchBool(Field(p, Switch(p.command.sel)))
    else None
  }

  function MeterSays(num: Numerals, p: Param, n: Sel): Option<real> {
    if p.command.MeterCurrent? || IsStatus(p.command) then
      match HexField(num, p, Meter02(n)) case Some(raw) => Some(raw as real / 100.0) case None => None
    else None
  }

  function EnergySays(num: Numerals, p: Param, n: Sel): Option<int> {
    if p.command.MeterAccumulated? then HexField(num, p, Meter00(n)) else None
  }

  function AlarmSays<A>(num: Numerals, decode: int -> A, p: Param, n: Sel): Option<A> {
    if p.command.AlarmEvent? then
      match HexField(num, p, Event(n)) case Some(raw) => Some(decode(raw)) case None => None
    else None
  }

  function StandbySays<S>(num: Numerals, decode: int -> S, p: Param, n: Sel): Option<S> {
    if p.command.DeviceStatus? && n > 0 then
      match HexField(num, p, Event(n)) case Some(raw) => Some(decode(raw)) case None => None
    else None
  }

  function CutoffSays<C>(decode: string -> Option<C>, p: Param, n: Sel): Option<C> {
    if IsConfig(p.command) && p.command.sel == n && n > 0 && Setting(n) in p.fields then decode(p.fields[Setting(n)])
    else None
  }

  // ---- last write wins ---------------------------------------------------------------

  function Last<T>(params: seq<Param>, says: (Param, Sel) -> Option<T>, n: Sel): Option<T> {
    if params == [] then None
    else
      var p := params[|params| - 1];
      if says(p, n).Some? then says(p, n) else Last(params[..|params| - 1], says, n)
  }

  function Collect<T>(params: seq<Param>, says: (Param, Sel) -> Option<T>): map<Sel, T> {
    map n: Sel | n < 5 && Last(params, says, n).Some? :: Last(params, says, n).value
  }

  /** Last, without recursion. */
  lemma {:induction false} LastMeans<T(!new)>(params: seq<Param>, says: (Param, Sel) -> Option<T>, n: Sel, v: T)
    ensures Last(params, says, n) == Some(v) <==>
            exists i :: 0 <= i < |params| && says(params[i], n) == Some(v)
                        && forall k :: i < k < |params| ==> says(params[k], n) == None
  {
    if params != [] {
      var init := params[..|params| - 1];
      LastMeans(init, says, n, v);
      if says(params[|params| - 1], n).Some? {
        assert Last(params, says, n) == says(params[|params| - 1], n);
      } else if Last(params, says, n) == Some(v) {
        var i :| 0 <= i < |init| && says(init[i], n) == Some(v) && forall k :: i < k < |init| ==> says(init[k], n) == None;
        assert says(params[i], n) == Some(v);
        assert forall k :: i < k < |init| ==> init[k] == params[k];
      } else {
        forall i | 0 <= i < |params| && says(params[i], n) == Some(v)
          ensures exists k :: i < k < |params| && says(params[k], n) != None
        {
          assert init[i] == params[i];
          var k :| i < k < |init| && says(init[k], n) != None;
          assert says(params[k], n) != None;
        }
      }
    }
  }

  /** What one more parameter changes. */
  function Overlay<T>(m: map<Sel, T>, p: Param, says: (Param, Sel) -> Option<T>): map<Sel, T> {
    map n: Sel | n < 5 && (says(p, n).Some? || n in m) :: if says(p, n).Some? then says(p, n).value else m[n]
  }

  lemma CollectGrows<T>(params: seq<Param>, i: nat, says: (Param, Sel) -> Option<T>)
    requires i < |params|
    ensures Collect(params[..i + 1], says) == Overlay(Collect(params[..i], says), params[i], says)
  {
    assert params[..i + 1][..i] == params[..i];
  }

  /** The loops `for n in range(5)` of both parsers. */
  method WriteAll<T>(m: map<Sel, T>, p: Param, says: (Param, Sel) -> Option<T>) returns (r: map<Sel, T>)
    ensures r == Overlay(m, p, says)
  {
    r := m;
    var n: nat := 0;
    while n < 5
      invariant n <= 5
      invariant forall k: Sel :: k in r <==> k in m || (k < n && says(p, k).Some?)
      invariant forall k: Sel :: k in r ==> r[k] == if k < n && says(p, k).Some? then says(p, k).value else m[k]
    {
      var value := says(p, n);
      if value.Some? {
        r := r[n as Sel := value.value];
      }
      n := n + 1;
    }
  }

  datatype Wifi = Wifi(ssid: Option<string>, rssiDbm: Option<int>, rssiRaw: Option<string>)

  const NO_WIFI := Wifi(None, None, None)

  function WifiAfter(num: Numerals, w: Wifi, p: Param): Wifi {
    var named := if Ssid in p.fields then w.(ssid := Some(p.fields[Ssid])) else w;
    if Rssi !in p.fields then named
    else match num.dec(p.fields[Rssi])
         case Some(dbm) => named.(rssiDbm := Some(dbm))
         case None => named.(rssiRaw := Some(p.fields[Rssi]))
  }

  function WifiOf(num: Numerals, params: seq<Param>): Wifi {
    if params == [] then NO_WIFI else WifiAfter(num, WifiOf(num, params[..|params| - 1]), params[|params| - 1])
  }

  // ---- v/t/p/e ---------------------------------------------------------------------------

  /** The four comma-separated hexadecimal lists beside parameters[]. */
  datatype Report = Report(v: Option<string>, t: Option<string>, p: Option<string>, e: Option<string>)

  function StripAll(pieces: seq<string>): (r: seq<string>)
    ensures |r| == |pieces|
  {
    seq(|pieces|, i requires 0 <= i < |pieces| => Strip(pieces[i]))
  }

  predicate AllTokens(pieces: seq<string>) {
    forall i :: 0 <= i < |pieces| ==> pieces[i] != "" && AllHex(pieces[i])
  }

  function Values(pieces: seq<string>): (r: seq<nat>)
    requires AllTokens(pieces)
    ensures |r| == |pieces|
  {
    seq(|pieces|, i requires 0 <= i < |pieces| => HexValue(pieces[i]))
  }

  function ParseHexList(raw: Option<string>, expected: nat): (r: Option<seq<nat>>)
    ensures r.Some? ==> |r.value| == expected
  {
    if raw == None then None
    else
      var parts := StripAll(Split(raw.value, ','));
      if |parts| == expected && AllTokens(parts) then Some(Values(parts)) else None
  }

  function HexTexts(values: seq<nat>, width: nat): (r: seq<string>)
    requires forall i :: 0 <= i < |values| ==> values[i] < Pow16(width)
    ensures |r| == |values|
  {
    seq(|values|, i requires 0 <= i < |values| => HexText(values[i], width))
  }

  /** A list written in hexadecimal is read back, and only at its own length. */
  lemma HexListRoundTrip(values: seq<nat>, width: nat, expected: nat)
    requires width > 0 && values != [] && forall i :: 0 <= i < |values| ==> values[i] < Pow16(width)
    ensures ParseHexList(Some(Join(HexTexts(values, width), ',')), expected)
         == if expected == |values| then Some(values) else None
  {
    var texts := HexTexts(values, width);
    forall i | 0 <= i < |texts| ensures ',' !in texts[i] && Strip(texts[i]) == texts[i] && HexValue(texts[i]) == values[i] {
      HexRoundTrip(values[i], width);
      StripTrimmed(texts[i]);
    }
    SplitJoin(texts, ',');
    assert StripAll(texts) == texts;
    assert Values(texts) == values;
  }

  /** [outlet1, outlet2, outlet3, outlet4, total] with the total at 0. */
  function Remap(vals: seq<nat>): (m: map<Sel, real>)
    requires |vals| == 5
  {
    map[0 := vals[4] as real / 1000.0, 1 := vals[0] as real / 1000.0, 2 := vals[1] as real / 1000.0,
        3 := vals[2] as real / 1000.0, 4 := vals[3] as real / 1000.0]
  }

  function Temperatures(vals: seq<nat>): map<Sel, real>
    requires |vals| == 4
  {
    map[1 := vals[0] as real, 2 := vals[1] as real, 3 := vals[2] as real, 4 := vals[3] as real]
  }

  // ---- the dashboard's parser ----------------------------------------------------------------

  datatype Reading<A, C, S> = Reading(
    power: map<Sel, bool>,
    meterWatts: map<Sel, real>,
    energyRaw: map<Sel, int>,
    alarms: map<Sel, A>,
    cutoffs: map<Sel, C>,
    standby: map<Sel, S>,
    wifi: Wifi)

  type DashboardBase = Reading<Alarm, Cutoff, Idle>
  type RelayReading = Reading<Alarm, CutoffRecord, IdleState>

  function Silent<A, C, S>(): Reading<A, C, S> {
    Reading(map[], map[], map[], map[], map[], map[], NO_WIFI)
  }

  datatype Extras = Extras(voltage: Option<real>, temperature: map<Sel, real>, energyKwh: map<Sel, real>, vtpeSeen: bool)

  /** What a parameter list says, selector by selector: for each, the last parameter that speaks. */
  function Meaning<A, C, S>(num: Numerals, params: seq<Param>, d: Decoders<A, C, S>): Reading<A, C, S> {
    Reading(Collect(params, PowerSays),
            Collect(params, (p, n) => MeterSays(num, p, n)),
            Collect(params, (p, n) => EnergySays(num, p, n)),
            Collect(params, (p, n) => AlarmSays(num, d.alarm, p, n)),
            Collect(params, (p, n) => CutoffSays(d.cutoff, p, n)),
            Collect(params, (p, n) => StandbySays(num, d.idle, p, n)),
            WifiOf(num, params))
  }

  /** Power and status in one block, as the dashboard has it. */
  method DashboardPower(power: map<Sel, bool>, p: Param) returns (r: map<Sel, bool>)
    ensures r == Overlay(power, p, PowerSays)
  {
    hide SwitchBool;
    r := power;
    if IsSwitching(p.command) {
      var n := p.command.sel;
      var v := SwitchBool(Field(p, Switch(n)));
      if v.Some? {
        r := r[n := v.value];
        if p.command == PowerEvent(0) {
          for o := 1 to 5
            invariant forall k: Sel :: k in r <==> k in power || k < o
            invariant forall k: Sel :: k in r ==> r[k] == if k < o then v.value else power[k]
          {
            r := r[o as Sel := v.value];
          }
        }
      }
    }
  }

  /** A switch field that is there but cannot be read. */
  datatype Malformed = Malformed(command: Command, key: Key, value: string)

  function MalformedIn(p: Param): seq<Malformed> {
    if IsSwitching(p.command) && Switch(p.command.sel) in p.fields && SwitchBool(Field(p, Switch(p.command.sel))) == None
    then [Malformed(p.command, Switch(p.command.sel), p.fields[Switch(p.command.sel)])]
    else []
  }

  function MalformedSwitches(params: seq<Param>): seq<Malformed> {
    if params == [] then [] else MalformedSwitches(params[..|params| - 1]) + MalformedIn(params[|params| - 1])
  }

  /** Power, then status, as the relay has it, with its note of what it could not read. */
  method RelayPower(power: map<Sel, bool>, malformed: seq<Malformed>, p: Param)
    returns (r: map<Sel, bool>, noted: seq<Malformed>)
    ensures r == Overlay(power, p, PowerSays)
    ensures noted == malformed + MalformedIn(p)
  {
    hide SwitchBool;
    r, noted := power, malformed;
    if p.command.PowerEvent? || p.command.PowerSet? {
      var n := p.command.sel;
      var v := SwitchBool(Field(p, Switch(n)));
      if v.Some? {
        r := r[n := v.value];
        if n == 0 && p.command.PowerEvent? {
          for outlet := 1 to 5
            invariant forall k: Sel :: k in r <==> k in power || k < outlet
            invariant forall k: Sel :: k in r ==> r[k] == if k < outlet then v.value else power[k]
          {
            r := r[outlet as Sel := v.value];
          }
        }
      } else if Switch(n) in p.fields {
        noted := noted + [Malformed(p.command, Switch(n), p.fields[Switch(n)])];
      }
      assert r == Overlay(power, p, PowerSays);
    }
    if IsStatus(p.command) {
      r, noted := RelayStatus(r, noted, p);
    }
  }

  method RelayStatus(power: map<Sel, bool>, malformed: seq<Malformed>, p: Param)
    returns (r: map<Sel, bool>, noted: seq<Malformed>)
    requires IsStatus(p.command)
    ensures r == Overlay(power, p, PowerSays)
    ensures noted == malformed + MalformedIn(p)
  {
    hide SwitchBool;
    r, noted := power, malformed;
    var n := p.command.sel;
    var v := SwitchBool(Field(p, Switch(n)));
    if v.Some? {
      r := r[n := v.value];
    } else if Switch(n) in p.fields {
      noted := noted + [Malformed(p.command, Switch(n), p.fields[Switch(n)])];
    }
  }

  method DashboardConfig(cutoffs: map<Sel, Cutoff>, p: Param) returns (r: map<Sel, Cutoff>)
    ensures r == Overlay(cutoffs, p, (p, n) => CutoffSays(DashboardCutoff, p, n))
  {
    r := cutoffs;
    if IsConfig(p.command) && p.command.sel > 0 && Setting(p.command.sel) in p.fields {
      var s := Upper(Strip(p.fields[Setting(p.command.sel)]));
      if IsSettingText(s) {
        r := r[p.command.sel := Cutoff(HexValue(s[..6]), s[6..] == "01")];
      }
    }
  }

  method RelayConfig(cutoffs: map<Sel, CutoffRecord>, p: Param) returns (r: map<Sel, CutoffRecord>)
    ensures r == Overlay(cutoffs, p, (p, n) => CutoffSays(RelayCutoff, p, n))
  {
    r := cutoffs;
    if IsConfig(p.command) {
      var suffix := p.command.sel;
      if suffix > 0 && Setting(suffix) in p.fields {
        var decoded := RelayCutoff(p.fields[Setting(suffix)]);
        if decoded.Some? {
          r := r[suffix := decoded.value];
        }
      }
    }
  }

  /** The parameter part of parse_onem2m_message. */
  method ParseForDashboard(num: Numerals, params: seq<Param>) returns (r: DashboardBase)
    ensures r == Meaning(num, params, DASHBOARD)
  {
    hide PowerSays, MeterSays, EnergySays, AlarmSays, CutoffSays, StandbySays, Overlay, Collect, WifiAfter;
    r := Silent();
    EmptyMeaning(num, DASHBOARD);
    for i := 0 to |params|
      invariant r == Meaning(num, params[..i], DASHBOARD)
    {
      MeaningGrows(num, params, i, DASHBOARD);
      var p := params[i];
      var wifi := WifiAfter(num, r.wifi, p);
      var power := DashboardPower(r.power, p);
      var meter := WriteAll(r.meterWatts, p, (p, n) => MeterSays(num, p, n));
      var energy := WriteAll(r.energyRaw, p, (p, n) => EnergySays(num, p, n));
      var cutoffs := DashboardConfig(r.cutoffs, p);
      var standby := WriteAll(r.standby, p, (p, n) => StandbySays(num, DASHBOARD.idle, p, n));
      var alarms := WriteAll(r.alarms, p, (p, n) => AlarmSays(num, DASHBOARD.alarm, p, n));
      r := Reading(power, meter, energy, alarms, cutoffs, standby, wifi);
    }
    assert params[..|params|] == params;
  }

  /** _parse_telemetry_params, with the selectors of the status reports it saw and the switches it could not read. */
  method ParseForRelay(num: Numerals, params: seq<Param>)
    returns (r: RelayReading, reported: set<Sel>, malformed: seq<Malformed>)
    ensures r == Meaning(num, params, RELAY)
    ensures reported == ReportedSelectors(params)
    ensures malformed == MalformedSwitches(params)
  {
    hide PowerSays, MeterSays, EnergySays, AlarmSays, CutoffSays, StandbySays, Overlay, Collect, WifiAfter, MalformedIn;
    r := Silent();
    EmptyMeaning(num, RELAY);
    reported, malformed := {}, [];
    for i := 0 to |params|
      invariant r == Meaning(num, params[..i], RELAY)
      invariant reported == ReportedSelectors(params[..i])
      invariant malformed == MalformedSwitches(params[..i])
    {
      MeaningGrows(num, params, i, RELAY);
      assert params[..i + 1] == params[..i] + [params[i]];
      assert params[..i + 1][..i] == params[..i];
      var p := params[i];
      var wifi := WifiAfter(num, r.wifi, p);
      if p.command.StatusReport? {
        reported := reported + {p.command.sel};
      }
      var power: map<Sel, bool>;
      power, malformed := RelayPower(r.power, malformed, p);
      var meter := WriteAll(r.meterWatts, p, (p, n) => MeterSays(num, p, n));
      var energy := WriteAll(r.energyRaw, p, (p, n) => EnergySays(num, p, n));
      var cutoffs := RelayConfig(r.cutoffs, p);
      var standby := WriteAll(r.standby, p, (p, n) => StandbySays(num, RELAY.idle, p, n));
      var alarms := WriteAll(r.alarms, p, (p, n) => AlarmSays(num, RELAY.alarm, p, n));
      r := Reading(power, meter, energy, alarms, cutoffs, standby, wifi);
    }
    assert params[..|params|] == params;
  }

  /** Every switch field is either read or noted as malformed, and never both. */
  lemma {:induction false} SwitchesReadOrNoted(params: seq<Param>, p: Param)
    requires p in params && IsSwitching(p.command) && Switch(p.command.sel) in p.fields
    ensures PowerSays(p, p.command.sel) == None
       <==> Malformed(p.command, Switch(p.command.sel), p.fields[Switch(p.command.sel)]) in MalformedSwitches(params)
  {
    hide SwitchBool;
    var note := Malformed(p.command, Switch(p.command.sel), p.fields[Switch(p.command.sel)]);
    var init, last := params[..|params| - 1], params[|params| - 1];
    if p in init {
      SwitchesReadOrNoted(init, p);
    } else {
      OnlyUnreadNoted(init);
    }
  }

  lemma {:induction false} OnlyUnreadNoted(params: seq<Param>)
    ensures forall note :: note in MalformedSwitches(params) ==> SwitchBool(Some(note.value)) == None
  {
    hide SwitchBool;
    if params != [] {
      OnlyUnreadNoted(params[..|params| - 1]);
    }
  }

  function ReportedSelectors(params: seq<Param>): set<Sel> {
    set p | p in params && p.command.StatusReport? :: p.command.sel
  }

  lemma EmptyMeaning<A, C, S>(num: Numerals, d: Decoders<A, C, S>)
    ensures Meaning(num, [], d) == Silent()
  {
  }

  lemma MeaningGrows<A, C, S>(num: Numerals, params: seq<Param>, i: nat, d: Decoders<A, C, S>)
    requires i < |params|
    ensures var r, p := Meaning(num, params[..i], d), params[i];
            Meaning(num, params[..i + 1], d)
            == Reading(Overlay(r.power, p, PowerSays),
                       Overlay(r.meterWatts, p, (p, n) => MeterSays(num, p, n)),
                       Overlay(r.energyRaw, p, (p, n) => EnergySays(num, p, n)),
                       Overlay(r.alarms, p, (p, n) => AlarmSays(num, d.alarm, p, n)),
                       Overlay(r.cutoffs, p, (p, n) => CutoffSays(d.cutoff, p, n)),
                       Overlay(r.standby, p, (p, n) => StandbySays(num, d.idle, p, n)),
                       WifiAfter(num, r.wifi, p))
  {
    hide PowerSays, MeterSays, EnergySays, AlarmSays, CutoffSays, StandbySays, Overlay, Collect, WifiAfter;
    CollectGrows(params, i, PowerSays);
    CollectGrows(params, i, (p, n) => MeterSays(num, p, n));
    CollectGrows(params, i, (p, n) => EnergySays(num, p, n));
    CollectGrows(params, i, (p, n) => AlarmSays(num, d.alarm, p, n));
    CollectGrows(params, i, (p, n) => CutoffSays(d.cutoff, p, n));
    CollectGrows(params, i, (p, n) => StandbySays(num, d.idle, p, n));
    assert params[..i + 1][..i] == params[..i];
  }

  // ---- the two parsers agree ------------------------------------------------------------------

  function Plain(c: CutoffRecord): Cutoff {
    Cutoff(c.centiwatts, c.enabled)
  }

  function PlainIdle(s: IdleState): Idle {
    Idle(s.standby, s.active)
  }

  function Mapped<T, U>(value: Option<U>, f: U -> T): Option<T> {
    match value case Some(v) => Some(f(v)) case None => None
  }

  function MapValues<T, U>(m: map<Sel, U>, f: U -> T): map<Sel, T> {
    map n | n in m :: f(m[n])
  }

  /** The relay's reading without the raw texts only it keeps. */
  function Shared(r: RelayReading): DashboardBase {
    Reading(r.power, r.meterWatts, r.energyRaw, r.alarms, MapValues(r.cutoffs, Plain), MapValues(r.standby, PlainIdle),
            r.wifi)
  }

  /** Readings that agree parameter by parameter agree on every list. */
  lemma {:induction false} LastMapped<T, U>(params: seq<Param>, a: (Param, Sel) -> Option<T>,
        b: (Param, Sel) -> Option<U>, f: U -> T, n: Sel)
    requires forall p :: a(p, n) == Mapped(b(p, n), f)
    ensures Last(params, a, n) == Mapped(Last(params, b, n), f)
  {
    if params != [] {
      LastMapped(params[..|params| - 1], a, b, f, n);
    }
  }

  lemma CollectMapped<T, U>(params: seq<Param>, a: (Param, Sel) -> Option<T>, b: (Param, Sel) -> Option<U>, f: U -> T)
    requires forall p, n: Sel :: a(p, n) == Mapped(b(p, n), f)
    ensures Collect(params, a) == MapValues(Collect(params, b), f)
  {
    forall n: Sel ensures Last(params, a, n) == Mapped(Last(params, b, n), f) {
      LastMapped(params, a, b, f, n);
    }
  }

  lemma AlarmTablesAgree(raw: int)
    ensures DashboardAlarm(raw) == RelayAlarm(raw)
  {
  }

  /** On every parameter list the two parsers, each with its own tables, read the same switches, meters,
      energy, alarms, standby and wifi; only the standby cutoffs can differ. */
  lemma ParsersAgree(num: Numerals, params: seq<Param>)
    ensures Meaning(num, params, DASHBOARD).(cutoffs := map[]) == Shared(Meaning(num, params, RELAY)).(cutoffs := map[])
  {
    AlarmsAgree(num, params);
    StandbyAgrees(num, params);
    hide AlarmSays, StandbySays, CutoffSays, Collect;
  }

  lemma AlarmsAgree(num: Numerals, params: seq<Param>)
    ensures Meaning(num, params, DASHBOARD).alarms == Meaning(num, params, RELAY).alarms
  {
    hide Collect, DashboardAlarm, RelayAlarm;
    forall raw: int ensures DashboardAlarm(raw) == RelayAlarm(raw) {
      AlarmTablesAgree(raw);
    }
    CollectMapped(params, (p, n) => AlarmSays(num, DASHBOARD.alarm, p, n), (p, n) => AlarmSays(num, RELAY.alarm, p, n),
                  (alarm: Alarm) => alarm);
  }

  lemma StandbyAgrees(num: Numerals, params: seq<Param>)
    ensures Meaning(num, params, DASHBOARD).standby == MapValues(Meaning(num, params, RELAY).standby, PlainIdle)
  {
    hide Collect;
    CollectMapped(params, (p, n) => StandbySays(num, DASHBOARD.idle, p, n), (p, n) => StandbySays(num, RELAY.idle, p, n),
                  PlainIdle);
  }

  // ---- where the cutoffs differ -----------------------------------------------------------------

  predicate IsCleanByte(s: string) {
    s == "00" || s == "01"
  }

  /** A text is clean if its enable byte is 00 or 01, or if it is no setting at all. */
  predicate CleanSetting(text: string) {
    var s := Upper(Strip(text));
    IsSettingText(s) ==> IsCleanByte(s[6..])
  }

  lemma EnableByte(s: string)
    requires |s| == 2 && AllHex(s) && Upper(s) == s
    ensures HexValue(s) == 0 <==> s == "00"
    ensures HexValue(s) == 1 <==> s == "01"
  {
    var one := s[..1];
    assert one[..|one| - 1] == "" && HexValue("") == 0;
    assert HexValue(one) == HexDigit(s[0]);
    assert HexValue(s) == 16 * HexDigit(s[0]) + HexDigit(s[1]);
    assert Upper(s)[0] == s[0] && Upper(s)[1] == s[1];
    assert s == [s[0]] + [s[1]];
  }

  lemma UpperTwice(s: string)
    ensures Upper(Upper(s)) == Upper(s)
  {
  }

  /** The eight digits a parameter carries as the setting of an outlet, in upper case. */
  function SettingOf(p: Param, n: Sel): (digits: Option<string>)
    ensures digits.Some? ==> |digits.value| == 8 && AllHex(digits.value)
  {
    if IsConfig(p.command) && p.command.sel == n && n > 0 && Setting(n) in p.fields
       && IsSettingText(Upper(Strip(p.fields[Setting(n)])))
    then Some(Upper(Strip(p.fields[Setting(n)])))
    else None
  }

  /** The last parameter that carries eight digits for an outlet, or -1. */
  function LastSettingAt(params: seq<Param>, n: Sel): (i: int)
    ensures -1 <= i < |params|
    ensures i >= 0 ==> SettingOf(params[i], n).Some?
    ensures forall k :: i < k < |params| ==> SettingOf(params[k], n) == None
  {
    if params == [] then -1
    else if SettingOf(params[|params| - 1], n).Some? then |params| - 1
    else LastSettingAt(params[..|params| - 1], n)
  }

  /** The last one of those whose enable byte is 00 or 01, or -1. */
  function LastCleanAt(params: seq<Param>, n: Sel): (i: int)
    ensures -1 <= i < |params|
    ensures i >= 0 ==> SettingOf(params[i], n).Some? && IsCleanByte(SettingOf(params[i], n).value[6..])
    ensures forall k :: i < k < |params| && SettingOf(params[k], n).Some? ==> !IsCleanByte(SettingOf(params[k], n).value[6..])
  {
    if params == [] then -1
    else
      var digits := SettingOf(params[|params| - 1], n);
      if digits.Some? && IsCleanByte(digits.value[6..]) then |params| - 1
      else LastCleanAt(params[..|params| - 1], n)
  }

  function DashboardSetting(params: seq<Param>, n: Sel): Option<Cutoff> {
    Last(params, (p, n) => CutoffSays(DASHBOARD.cutoff, p, n), n)
  }

  function RelaySetting(params: seq<Param>, n: Sel): Option<CutoffRecord> {
    Last(params, (p, n) => CutoffSays(RELAY.cutoff, p, n), n)
  }

  /** What each parser makes of one parameter, from its eight digits. */
  lemma CutoffDecoders(p: Param, n: Sel)
    ensures var digits := SettingOf(p, n);
            && CutoffSays(DASHBOARD.cutoff, p, n)
               == (if digits == None then None else Some(Cutoff(HexValue(digits.value[..6]), digits.value[6..] == "01")))
            && CutoffSays(RELAY.cutoff, p, n)
               == (if digits == None || !IsCleanByte(digits.value[6..]) then None
                   else Some(CutoffRecord(digits.value, HexValue(digits.value[..6]), digits.value[6..] == "01")))
  {
    var digits := SettingOf(p, n);
    if digits.Some? {
      var s := digits.value;
      UpperTwice(Strip(p.fields[Setting(n)]));
      assert Upper(s[6..]) == s[6..] by {
        assert Upper(s)[6] == s[6] && Upper(s)[7] == s[7];
      }
      EnableByte(s[6..]);
    }
  }

  /** The dashboard shows the last setting seen for an outlet, the relay the last clean one. */
  lemma {:induction false} SettingsShown(params: seq<Param>, n: Sel)
    ensures var i := LastSettingAt(params, n);
            DashboardSetting(params, n)
            == if i < 0 then None
               else var s := SettingOf(params[i], n).value; Some(Cutoff(HexValue(s[..6]), s[6..] == "01"))
    ensures var j := LastCleanAt(params, n);
            RelaySetting(params, n)
            == if j < 0 then None
               else var s := SettingOf(params[j], n).value; Some(CutoffRecord(s, HexValue(s[..6]), s[6..] == "01"))
  {
    hide CutoffSays, SettingOf, IsCleanByte;
    if params != [] {
      CutoffDecoders(params[|params| - 1], n);
      SettingsShown(params[..|params| - 1], n);
    }
  }

  /** The two readings of an outlet's cutoff agree exactly when there is no setting; or the last one has the
      enable byte 00 or 01; or it has not, but the last one before it that has says disabled with the same
      threshold. */
  lemma CutoffsAgreeIff(params: seq<Param>, n: Sel)
    ensures DashboardSetting(params, n) == Mapped(RelaySetting(params, n), Plain) <==>
            var i, j := LastSettingAt(params, n), LastCleanAt(params, n);
            || i < 0
            || IsCleanByte(SettingOf(params[i], n).value[6..])
            || (j >= 0 && SettingOf(params[j], n).value[6..] == "00"
                && HexValue(SettingOf(params[j], n).value[..6]) == HexValue(SettingOf(params[i], n).value[..6]))
  {
    hide SettingOf;
    SettingsShown(params, n);
    var i, j := LastSettingAt(params, n), LastCleanAt(params, n);
    if i >= 0 && IsCleanByte(SettingOf(params[i], n).value[6..]) {
      assert i == j;
    }
  }

  /** When every setting has the enable byte 00 or 01, the two readings are the same in everything. */
  lemma CleanSettingsParseAlike(num: Numerals, params: seq<Param>)
    requires forall i, key :: 0 <= i < |params| && key in params[i].fields && key.Setting? ==>
               CleanSetting(params[i].fields[key])
    ensures Meaning(num, params, DASHBOARD) == Shared(Meaning(num, params, RELAY))
  {
    forall n: Sel ensures DashboardSetting(params, n) == Mapped(RelaySetting(params, n), Plain) {
      CutoffsAgreeIff(params, n);
      var i := LastSettingAt(params, n);
      if i >= 0 {
        assert Setting(n) in params[i].fields && Setting(n).Setting?;
        assert CleanSetting(params[i].fields[Setting(n)]);
      }
    }
    hide CleanSetting, CutoffSays, IsCleanByte;
    var a, b := Meaning(num, params, DASHBOARD).cutoffs, Meaning(num, params, RELAY).cutoffs;
    assert forall n: Sel :: n in a <==> DashboardSetting(params, n).Some?;
    assert forall n: Sel :: n in b <==> RelaySetting(params, n).Some?;
    assert a == MapValues(b, Plain);
    ParsersAgree(num, params);
  }

  // ---- v/t/p/e on top --------------------------------------------------------------------------

  datatype DashboardReading = DashboardReading(base: DashboardBase, extras: Extras)

  /** p is preferred: its five values replace whatever meter_watts holds. */
  method PreferReported(meter: map<Sel, real>, vals: map<Sel, real>) returns (r: map<Sel, real>)
    requires forall n: Sel :: n in vals
    ensures r == meter + vals
  {
    r := meter;
    for k := 0 to 5
      invariant forall n: Sel :: n in r <==> n < k || n in meter
      invariant forall n: Sel :: n in r ==> r[n] == if n < k then vals[n] else meter[n]
    {
      r := r[k as Sel := vals[k]];
    }
  }

  lemma RemapComplete(vals: seq<nat>)
    requires |vals| == 5
    ensures forall n: Sel :: n in Remap(vals)
  {
  }

  /** parse_onem2m_message: the parameters, then the valid ones of the four lists. */
  method ParseMessage(num: Numerals, params: seq<Param>, report: Report) returns (d: DashboardReading)
    ensures d == MessageMeaning(num, params, report)
  {
    hide ParseHexList, Meaning, Remap, Temperatures;
    var base := ParseForDashboard(num, params);
    var voltage: Option<real>, temperature: map<Sel, real>, energy: map<Sel, real> := None, map[], map[];
    var v := ParseHexList(report.v, 1);
    if v.Some? {
      voltage := Some(v.value[0] as real / 1000.0);
    }
    var t := ParseHexList(report.t, 4);
    if t.Some? {
      temperature := Temperatures(t.value);
    }
    var p := ParseHexList(report.p, 5);
    if p.Some? {
      RemapComplete(p.value);
      var meter := PreferReported(base.meterWatts, Remap(p.value));
      base := base.(meterWatts := meter);
    }
    var e := ParseHexList(report.e, 5);
    if e.Some? {
      energy := Remap(e.value);
    }
    d := DashboardReading(base, Extras(voltage, temperature, energy, v.Some? && t.Some? && p.Some? && e.Some?));
  }

  function MessageMeaning(num: Numerals, params: seq<Param>, report: Report): DashboardReading {
    var base := Meaning(num, params, DASHBOARD);
    var v, t := ParseHexList(report.v, 1), ParseHexList(report.t, 4);
    var p, e := ParseHexList(report.p, 5), ParseHexList(report.e, 5);
    DashboardReading(
      if p.Some? then base.(meterWatts := base.meterWatts + Remap(p.value)) else base,
      Extras(if v.Some? then Some(v.value[0] as real / 1000.0) else None,
             if t.Some? then Temperatures(t.value) else map[],
             if e.Some? then Remap(e.value) else map[],
             v.Some? && t.Some? && p.Some? && e.Some?))
  }

  /** A malformed list counts as absent. */
  function Valid(report: Report): Report {
    Report(if ParseHexList(report.v, 1).Some? then report.v else None,
           if ParseHexList(report.t, 4).Some? then report.t else None,
           if ParseHexList(report.p, 5).Some? then report.p else None,
           if ParseHexList(report.e, 5).Some? then report.e else None)
  }

  /** Malformed v/t/p/e fields change nothing; a valid p decides all five meters, whatever the parameters
      said; without one the dashboard's meters are the relay's. */
  lemma ListsOverParameters(num: Numerals, params: seq<Param>, report: Report)
    ensures MessageMeaning(num, params, report) == MessageMeaning(num, params, Valid(report))
    ensures var m := MessageMeaning(num, params, report);
            match ParseHexList(report.p, 5)
            case Some(vals) => m.base.meterWatts == Remap(vals)
            case None => m.base.meterWatts == Meaning(num, params, RELAY).meterWatts
    ensures MessageMeaning(num, params, report).base.(meterWatts := map[])
         == Meaning(num, params, DASHBOARD).(meterWatts := map[])
  {
    ParsersAgree(num, params);
    hide Meaning, Split, StripAll, AllTokens, Values;
    if ParseHexList(report.p, 5).Some? {
      RemapComplete(ParseHexList(report.p, 5).value);
      var vals := Remap(ParseHexList(report.p, 5).value);
      assert Meaning(num, params, DASHBOARD).meterWatts + vals == vals;
    }
  }

  // ---- commands and their reading back -------------------------------------------------------------

  datatype Inject =
    | GetStatus
    | SetPower(outlet: int, on: bool)
    | SetCutoff(outlet: int, centiwatts: int, enabled: bool)

  /** The parameter a local inject is translated to; None when it is refused. STATUS_GET carries no field. */
  function Encode(cmd: Inject): Option<Param> {
    match cmd
    case GetStatus => Some(Param(Unrecognised, map[]))
    case SetPower(outlet, on) =>
      if 0 <= outlet < 5 then Some(Param(PowerSet(outlet), map[Switch(outlet) := if on then "FF" else "00"])) else None
    case SetCutoff(outlet, centiwatts, enabled) =>
      if 1 <= outlet < 5 && 0 <= centiwatts <= 0xFFFFFF then
        Pow16Six();
        Some(Param(ConfigSet(outlet), map[Setting(outlet) := HexText(centiwatts, 6) + if enabled then "01" else "00"]))
      else None
  }

  lemma Pow16Six()
    ensures Pow16(6) == 0x100_0000
  {
    assert Pow16(2) == 0x100;
    assert Pow16(4) == 0x1_0000;
  }

  lemma CollectNothing<T>(p: Param, says: (Param, Sel) -> Option<T>)
    requires forall n: Sel :: says(p, n) == None
    ensures Collect([p], says) == map[]
  {
    CollectGrows([p], 0, says);
    assert [p][..1] == [p] && [p][..0] == [];
  }

  lemma CollectOne<T>(p: Param, says: (Param, Sel) -> Option<T>, sel: Sel, v: T)
    requires forall n: Sel :: says(p, n) == if n == sel then Some(v) else None
    ensures Collect([p], says) == map[sel := v]
  {
    CollectGrows([p], 0, says);
    assert [p][..1] == [p] && [p][..0] == [];
  }

  /** Every accepted power command is read back, by both parsers, as exactly that one switch; in
      particular POWER_SET for the whole strip does not fan out to the outlets. */
  lemma PowerCommandReadBack(num: Numerals, outlet: int, on: bool)
    ensures Encode(SetPower(outlet, on)).Some? <==> 0 <= outlet < 5
    ensures 0 <= outlet < 5 ==>
              var params := [Encode(SetPower(outlet, on)).value];
              && Meaning(num, params, DASHBOARD) == Silent().(power := map[outlet := on])
              && Meaning(num, params, RELAY) == Silent().(power := map[outlet := on])
  {
    if 0 <= outlet < 5 {
      var p := Encode(SetPower(outlet, on)).value;
      var sel: Sel := outlet;
      assert SwitchBool(Some("FF")) == Some(true) && SwitchBool(Some("00")) == Some(false);
      assert Field(p, Switch(sel)) == Some(if on then "FF" else "00");
      CollectOne(p, PowerSays, sel, on);
      NothingElse(num, p, DASHBOARD);
      NothingElse(num, p, RELAY);
    }
  }

  /** A SET command says nothing about meters, energy, alarms, standby or wifi. */
  lemma NothingElse<A, C, S>(num: Numerals, p: Param, d: Decoders<A, C, S>)
    requires p.command.PowerSet? || p.command.ConfigSet?
    requires Ssid !in p.fields && Rssi !in p.fields
    ensures var m := Meaning(num, [p], d);
            && m == Silent().(power := m.power, cutoffs := m.cutoffs)
            && (p.command.PowerSet? ==> m.cutoffs == map[])
            && (p.command.ConfigSet? ==> m.power == map[])
  {
    CollectNothing(p, (p, n) => MeterSays(num, p, n));
    CollectNothing(p, (p, n) => EnergySays(num, p, n));
    CollectNothing(p, (p, n) => AlarmSays(num, d.alarm, p, n));
    CollectNothing(p, (p, n) => StandbySays(num, d.idle, p, n));
    if p.command.PowerSet? {
      CollectNothing(p, (p, n) => CutoffSays(d.cutoff, p, n));
    } else {
      CollectNothing(p, PowerSays);
    }
    var params := [p];
    assert params[..|params| - 1] == [];
    assert WifiOf(num, params) == NO_WIFI;
  }

  /** Every accepted cutoff, over its whole range, is read back unchanged by both parsers. */
  lemma CutoffCommandReadBack(num: Numerals, outlet: int, centiwatts: int, enabled: bool)
    ensures Encode(SetCutoff(outlet, centiwatts, enabled)).Some? <==> 1 <= outlet < 5 && 0 <= centiwatts <= 0xFFFFFF
    ensures 1 <= outlet < 5 && 0 <= centiwatts <= 0xFFFFFF ==>
              var params := [Encode(SetCutoff(outlet, centiwatts, enabled)).value];
              var text := params[0].fields[Setting(outlet)];
              && Meaning(num, params, DASHBOARD) == Silent().(cutoffs := map[outlet := Cutoff(centiwatts, enabled)])
              && Meaning(num, params, RELAY) == Silent().(cutoffs := map[outlet := CutoffRecord(text, centiwatts, enabled)])
  {
    if 1 <= outlet < 5 && 0 <= centiwatts <= 0xFFFFFF {
      var p := Encode(SetCutoff(outlet, centiwatts, enabled)).value;
      var sel: Sel := outlet;
      var text := p.fields[Setting(sel)];
      CutoffTextReadBack(centiwatts, enabled);
      CollectOne(p, (p, n) => CutoffSays(DASHBOARD.cutoff, p, n), sel, Cutoff(centiwatts, enabled));
      CollectOne(p, (p, n) => CutoffSays(RELAY.cutoff, p, n), sel, CutoffRecord(text, centiwatts, enabled));
      NothingElse(num, p, DASHBOARD);
      NothingElse(num, p, RELAY);
    }
  }

  lemma CutoffTextReadBack(centiwatts: nat, enabled: bool)
    requires centiwatts <= 0xFFFFFF
    ensures centiwatts < Pow16(6)
    ensures var text := HexText(centiwatts, 6) + if enabled then "01" else "00";
            && DashboardCutoff(text) == Some(Cutoff(centiwatts, enabled))
            && RelayCutoff(text) == Some(CutoffRecord(text, centiwatts, enabled))
  {
    Pow16Six();
    var tail := if enabled then "01" else "00";
    var text := HexText(centiwatts, 6) + tail;
    HexRoundTrip(centiwatts, 6);
    StripTrimmed(text);
    assert Upper(text) == text;
    assert text[..6] == HexText(centiwatts, 6) && text[6..] == tail;
    EnableByte(tail);
  }
}
