/** What either parser makes of a parameter list, read off the fields of the parameters (dashboard/mttl_telemetry.py,
    relay/rules/99-default.py): for each reading, which commands count, which field, and which value. */
module TelemetryFields {
  import opened Options
  import opened Text
  import opened Telemetry

  // ---- the last one that speaks -----------------------------------------------------

  /** The i-th of some readings is the last one that is there. */
  ghost predicate IsLast<T>(readings: seq<Option<T>>, i: int) {
    && 0 <= i < |readings| && readings[i].Some?
    && forall k :: i < k < |readings| ==> readings[k] == None
  }

  ghost predicate NoneThere<T>(readings: seq<Option<T>>) {
    forall k :: 0 <= k < |readings| ==> readings[k] == None
  }

  /** What is said last is the last reading, whatever is made of it. */
  lemma {:induction false} LastSaid<T, U>(params: seq<Param>, says: (Param, Sel) -> Option<T>, n: Sel,
        readings: seq<Option<U>>, f: U -> T)
    requires |readings| == |params| && forall k :: 0 <= k < |params| ==> says(params[k], n) == Mapped(readings[k], f)
    ensures forall i :: IsLast(readings, i) ==> Last(params, says, n) == Some(f(readings[i].value))
    ensures NoneThere(readings) ==> Last(params, says, n) == None
  {
    if params != [] {
      var last := |params| - 1;
      LastSaid(params[..last], says, n, readings[..last], f);
      forall i | IsLast(readings, i) ensures Last(params, says, n) == Some(f(readings[i].value)) {
        if i < last {
          assert IsLast(readings[..last], i);
          assert says(params[last], n) == None;
        }
      }
      if NoneThere(readings) {
        assert NoneThere(readings[..last]);
        assert says(params[last], n) == None;
      }
    }
  }

  // ---- switches ------------------------------------------------------------------------

  predicate IsOnText(text: string) {
    Strip(text) in {"FF", "Ff", "fF", "ff"}
  }

  predicate IsOffText(text: string) {
    Strip(text) == "00"
  }

  /** The parameter carries, in the field of its own selector, a switch that can be read. */
  predicate CarriesSwitch(p: Param) {
    && (p.command.PowerEvent? || p.command.PowerSet? || p.command.StatusReport? || p.command.StatusEvent?)
    && Switch(p.command.sel) in p.fields
    && (IsOnText(p.fields[Switch(p.command.sel)]) || IsOffText(p.fields[Switch(p.command.sel)]))
  }

  /** It speaks for its own selector; a POWER_EVENT for the whole strip speaks for all five. */
  predicate Switches(p: Param, n: Sel) {
    CarriesSwitch(p) && (p.command.sel == n || p.command == PowerEvent(0))
  }

  lemma SwitchTexts(text: string)
    ensures SwitchBool(Some(text)) == if IsOnText(text) then Some(true) else if IsOffText(text) then Some(false) else None
  {
    var s := Strip(text);
    hide Strip;
    if |s| == 2 {
      assert s == [s[0], s[1]] && Upper(s) == [UpperChar(s[0]), UpperChar(s[1])];
    }
  }

  lemma NoSwitchText()
    ensures SwitchBool(None) == None
  {
    assert Strip("") == "";
  }

  /** What the parameter says about one switch. */
  function SwitchField(p: Param, n: Sel): Option<bool> {
    if Switches(p, n) then Some(IsOnText(p.fields[Switch(p.command.sel)])) else None
  }

  function SwitchFields(params: seq<Param>, n: Sel): seq<Option<bool>> {
    seq(|params|, i requires 0 <= i < |params| => SwitchField(params[i], n))
  }

  lemma PowerSaid(p: Param, n: Sel)
    ensures PowerSays(p, n) == SwitchField(p, n)
  {
    hide SwitchBool, IsOnText, IsOffText;
    NoSwitchText();
    if IsSwitching(p.command) && Switch(p.command.sel) in p.fields {
      SwitchTexts(p.fields[Switch(p.command.sel)]);
      OnIsNotOff(p.fields[Switch(p.command.sel)]);
    }
  }

  lemma OnIsNotOff(text: string)
    ensures !(IsOnText(text) && IsOffText(text))
  {
  }

  /** A switch is what the last parameter that speaks for it says, for either parser. */
  lemma PowerIsLastSwitch<A, C, S>(num: Numerals, params: seq<Param>, d: Decoders<A, C, S>, n: Sel)
    ensures var m, readings := Meaning(num, params, d).power, SwitchFields(params, n);
            && (forall i :: IsLast(readings, i) ==> n in m && m[n] == readings[i].value)
            && (NoneThere(readings) ==> n !in m)
  {
    hide SwitchField, PowerSays;
    forall k | 0 <= k < |params| ensures PowerSays(params[k], n) == Mapped(SwitchFields(params, n)[k], (on: bool) => on) {
      PowerSaid(params[k], n);
    }
    LastSaid(params, PowerSays, n, SwitchFields(params, n), (on: bool) => on);
  }

  /** Only a POWER_EVENT for the whole strip sets more than its own switch, and it sets all five alike. */
  lemma OnlyTheStripFansOut<A, C, S>(num: Numerals, p: Param, d: Decoders<A, C, S>)
    ensures var m := Meaning(num, [p], d).power;
            if CarriesSwitch(p) && p.command == PowerEvent(0) then
              forall n: Sel :: n in m && m[n] == IsOnText(p.fields[Switch(0)])
            else if CarriesSwitch(p) then m == map[p.command.sel := IsOnText(p.fields[Switch(p.command.sel)])]
            else m == map[]
  {
    hide IsOnText, IsOffText;
    forall n: Sel
      ensures var m := Meaning(num, [p], d).power;
              if Switches(p, n) then n in m && m[n] == IsOnText(p.fields[Switch(p.command.sel)]) else n !in m
    {
      PowerIsLastSwitch(num, [p], d, n);
      assert SwitchFields([p], n) == [SwitchField(p, n)];
      assert Switches(p, n) ==> IsLast(SwitchFields([p], n), 0);
      assert !Switches(p, n) ==> NoneThere(SwitchFields([p], n));
    }
    hide Meaning;
  }

  // ---- meters and energy -----------------------------------------------------------------

  /** The watt meter of a selector: meterN_02 of METER_CUR_STATUS_EVENT and of the status commands. */
  function MeterField(num: Numerals, p: Param, n: Sel): Option<int> {
    if (p.command.MeterCurrent? || p.command.StatusReport? || p.command.StatusEvent?) && Meter02(n) in p.fields
    then num.hex(p.fields[Meter02(n)])
    else None
  }

  function MeterFields(num: Numerals, params: seq<Param>, n: Sel): seq<Option<int>> {
    seq(|params|, i requires 0 <= i < |params| => MeterField(num, params[i], n))
  }

  /** A hundred times the watts is the number in the last meter field that can be read. */
  lemma MeterIsLastField<A, C, S>(num: Numerals, params: seq<Param>, d: Decoders<A, C, S>, n: Sel)
    ensures var m, readings := Meaning(num, params, d).meterWatts, MeterFields(num, params, n);
            && (forall i :: IsLast(readings, i) ==> n in m && m[n] * 100.0 == readings[i].value as real)
            && (NoneThere(readings) ==> n !in m)
  {
    var says := (p: Param, n: Sel) => MeterSays(num, p, n);
    LastSaid(params, says, n, MeterFields(num, params, n), (raw: int) => raw as real / 100.0);
    assert Meaning(num, params, d).meterWatts == Collect(params, says);
  }

  /** The energy counter of a selector: meterN_00 of METER_ACC_STATUS_EVENT. */
  function EnergyField(num: Numerals, p: Param, n: Sel): Option<int> {
    if p.command.MeterAccumulated? && Meter00(n) in p.fields then num.hex(p.fields[Meter00(n)]) else None
  }

  function EnergyFields(num: Numerals, params: seq<Param>, n: Sel): seq<Option<int>> {
    seq(|params|, i requires 0 <= i < |params| => EnergyField(num, params[i], n))
  }

  lemma EnergyIsLastField<A, C, S>(num: Numerals, params: seq<Param>, d: Decoders<A, C, S>, n: Sel)
    ensures var m, readings := Meaning(num, params, d).energyRaw, EnergyFields(num, params, n);
            && (forall i :: IsLast(readings, i) ==> n in m && m[n] == readings[i].value)
            && (NoneThere(readings) ==> n !in m)
  {
    var says := (p: Param, n: Sel) => EnergySays(num, p, n);
    LastSaid(params, says, n, EnergyFields(num, params, n), (raw: int) => raw);
    assert Meaning(num, params, d).energyRaw == Collect(params, says);
  }

  // ---- alarms and standby ------------------------------------------------------------------

  function AlarmField(num: Numerals, p: Param, n: Sel): Option<int> {
    if p.command.AlarmEvent? && Event(n) in p.fields then num.hex(p.fields[Event(n)]) else None
  }

  function AlarmFields(num: Numerals, params: seq<Param>, n: Sel): seq<Option<int>> {
    seq(|params|, i requires 0 <= i < |params| => AlarmField(num, params[i], n))
  }

  lemma AlarmIsLastField<A, C, S>(num: Numerals, params: seq<Param>, d: Decoders<A, C, S>, n: Sel)
    ensures var m, readings := Meaning(num, params, d).alarms, AlarmFields(num, params, n);
            && (forall i :: IsLast(readings, i) ==> n in m && m[n] == d.alarm(readings[i].value))
            && (NoneThere(readings) ==> n !in m)
  {
    var says := (p: Param, n: Sel) => AlarmSays(num, d.alarm, p, n);
    LastSaid(params, says, n, AlarmFields(num, params, n), d.alarm);
    hide AlarmSays, AlarmFields, Last;
    assert Meaning(num, params, d).alarms == Collect(params, says);
  }

  /** The standby events of the four outlets; the strip as a whole has none. */
  function StandbyField(num: Numerals, p: Param, n: Sel): Option<int> {
    if p.command.DeviceStatus? && 1 <= n && Event(n) in p.fields then num.hex(p.fields[Event(n)]) else None
  }

  function StandbyFields(num: Numerals, params: seq<Param>, n: Sel): seq<Option<int>> {
    seq(|params|, i requires 0 <= i < |params| => StandbyField(num, params[i], n))
  }

  lemma StandbyIsLastField<A, C, S>(num: Numerals, params: seq<Param>, d: Decoders<A, C, S>, n: Sel)
    ensures var m, readings := Meaning(num, params, d).standby, StandbyFields(num, params, n);
            && (forall i :: IsLast(readings, i) ==> n in m && m[n] == d.idle(readings[i].value))
            && (NoneThere(readings) ==> n !in m)
    ensures 0 !in Meaning(num, params, d).standby
  {
    var says := (p: Param, n: Sel) => StandbySays(num, d.idle, p, n);
    LastSaid(params, says, n, StandbyFields(num, params, n), d.idle);
    assert NoneThere(StandbyFields(num, params, 0));
    LastSaid(params, says, 0, StandbyFields(num, params, 0), d.idle);
    hide StandbySays, StandbyFields, Last;
    assert Meaning(num, params, d).standby == Collect(params, says);
  }

  const TRIPS_AND_WARNINGS: map<int, string> :=
    map[0x00 := "normal", 0x42 := "overheat_trip", 0x44 := "overheat_warning", 0x86 := "overload_trip",
        0x88 := "overload_warning"]

  const RECOVERIES: map<int, string> := map[0x46 := "overheat_recovery", 0x80 := "overload_recovery"]

  /** Both parsers keep the code; a recovery is an event, but the state is normal again; every other known code
      is the same as an event and as a state. */
  lemma AlarmCodes(raw: int)
    ensures forall alarm :: alarm == DASHBOARD.alarm(raw) || alarm == RELAY.alarm(raw) ==>
              && alarm.raw == raw
              && (raw in TRIPS_AND_WARNINGS ==> alarm.event == alarm.state == Named(TRIPS_AND_WARNINGS[raw]))
              && (raw in RECOVERIES ==> alarm.event == Named(RECOVERIES[raw]) && alarm.state == Named("normal"))
              && (raw !in TRIPS_AND_WARNINGS && raw !in RECOVERIES ==> alarm.event == alarm.state == UnknownCode(raw))
  {
  }

  /** 0 is standby and 1 is in use; no other code is either. */
  lemma StandbyCodes(raw: int)
    ensures var a, b := DASHBOARD.idle(raw), RELAY.idle(raw);
            && (a.standby <==> raw == 0) && (a.active <==> raw == 1)
            && (b.standby <==> raw == 0) && (b.active <==> raw == 1) && b.raw == raw
            && (b.state == OnStandby <==> raw == 0) && (b.state == InUse <==> raw == 1)
            && (raw != 0 && raw != 1 ==> b.state == UnknownIdle(raw))
  {
  }

  // ---- wifi -----------------------------------------------------------------------------------

  function SsidFields(params: seq<Param>): seq<Option<string>> {
    seq(|params|, i requires 0 <= i < |params| => if Ssid in params[i].fields then Some(params[i].fields[Ssid]) else None)
  }

  /** The strengths that are numbers, or the texts of those that are not. */
  function RssiNumbers(num: Numerals, params: seq<Param>): seq<Option<int>> {
    seq(|params|, i requires 0 <= i < |params| =>
      if Rssi in params[i].fields then num.dec(params[i].fields[Rssi]) else None)
  }

  function RssiTexts(num: Numerals, params: seq<Param>): seq<Option<string>> {
    seq(|params|, i requires 0 <= i < |params| =>
      if Rssi in params[i].fields && num.dec(params[i].fields[Rssi]) == None then Some(params[i].fields[Rssi]) else None)
  }

  ghost predicate IsLastOf<T>(value: Option<T>, readings: seq<Option<T>>) {
    if value == None then NoneThere(readings) else exists i :: IsLast(readings, i) && readings[i] == value
  }

  lemma IsLastOfGrows<T>(before: Option<T>, value: Option<T>, readings: seq<Option<T>>)
    requires readings != [] && IsLastOf(before, readings[..|readings| - 1])
    requires value == if readings[|readings| - 1].Some? then readings[|readings| - 1] else before
    ensures IsLastOf(value, readings)
  {
    var n := |readings| - 1;
    if readings[n].Some? {
      assert IsLast(readings, n);
    } else if before.Some? {
      var i :| IsLast(readings[..n], i) && readings[..n][i] == before;
      assert IsLast(readings, i);
    }
  }

  /** Any parameter may carry the name of the network and its strength; the last of each counts, readable and
      unreadable strengths apart. */
  lemma {:induction false} WifiIsLastField(num: Numerals, params: seq<Param>)
    ensures var w := WifiOf(num, params);
            && IsLastOf(w.ssid, SsidFields(params)) && IsLastOf(w.rssiDbm, RssiNumbers(num, params))
            && IsLastOf(w.rssiRaw, RssiTexts(num, params))
  {
    if params != [] {
      var init := params[..|params| - 1];
      WifiIsLastField(num, init);
      var before, after := WifiOf(num, init), WifiOf(num, params);
      assert SsidFields(params)[..|init|] == SsidFields(init);
      assert RssiNumbers(num, params)[..|init|] == RssiNumbers(num, init);
      assert RssiTexts(num, params)[..|init|] == RssiTexts(num, init);
      IsLastOfGrows(before.ssid, after.ssid, SsidFields(params));
      IsLastOfGrows(before.rssiDbm, after.rssiDbm, RssiNumbers(num, params));
      IsLastOfGrows(before.rssiRaw, after.rssiRaw, RssiTexts(num, params));
    }
  }

  // ---- the four lists -----------------------------------------------------------------------

  /** A list is valid exactly if it has the expected number of pieces, and each is a non-empty hexadecimal number
      apart from white space; its values are those numbers. */
  lemma ListIsValidIff(text: string, expected: nat)
    ensures var pieces := Split(text, ',');
            && (ParseHexList(Some(text), expected).Some? <==>
                  |pieces| == expected
                  && forall i :: 0 <= i < |pieces| ==> Strip(pieces[i]) != "" && AllHex(Strip(pieces[i])))
            && (ParseHexList(Some(text), expected).Some? ==>
                  forall i :: 0 <= i < |pieces| ==>
                    AllHex(Strip(pieces[i])) && ParseHexList(Some(text), expected).value[i] == HexValue(Strip(pieces[i])))
    ensures ParseHexList(None, expected) == None
  {
    hide Split, Strip, HexValue;
    var pieces := Split(text, ',');
    assert forall i :: 0 <= i < |pieces| ==> StripAll(pieces)[i] == Strip(pieces[i]);
  }

  /** Upper and lower case digits count alike. */
  lemma {:induction false} HexValueOfUpper(s: string)
    requires AllHex(s)
    ensures AllHex(Upper(s)) && HexValue(Upper(s)) == HexValue(s)
  {
    if s != "" {
      var init := s[..|s| - 1];
      HexValueOfUpper(init);
      assert Upper(s)[..|s| - 1] == Upper(init);
    }
  }
}
