/** From the messages a device sends to its stored entry: what a message is worth, and how a sequence of them
    is folded in (dashboard/mttl_telemetry.py, parse_onem2m_message and merge_delta). */
module DeviceMessages {
  import opened Options
  import opened DeviceEntry
  import T = Telemetry

  // ---- messages ---------------------------------------------------------------------

  /** A cmd_report: what is kept of it, and the lists v, t, p and e beside its parameters. */
  datatype CmdReport = CmdReport(summary: string, lists: T.Report)

  /** The id and type a bootstrap carries, empty where they are missing. */
  datatype DeviceInfo = DeviceInfo(id: string, kind: string)

  datatype Message =
    | Bootstrap(device: Option<DeviceInfo>)
    | Telemetry(params: seq<T.Param>, report: Option<CmdReport>)
    | Irrelevant

  const NO_LISTS := T.Report(None, None, None, None)

  function Lists(m: Message): T.Report {
    if m.Telemetry? && m.report.Some? then m.report.value.lists else NO_LISTS
  }

  function Params(m: Message): seq<T.Param> {
    if m.Telemetry? then m.params else []
  }

  // ---- the delta of a message ----------------------------------------------------------

  predicate IsSelText(text: string) {
    |text| == 1 && '0' <= text[0] <= '4'
  }

  function SelOf(text: string): T.Sel
    requires IsSelText(text)
  {
    (text[0] as int) - ('0' as int)
  }

  function Keyed<V>(m: map<T.Sel, V>, text: string, cell: V -> Cell): Option<Cell> {
    if IsSelText(text) && SelOf(text) in m then Some(cell(m[SelOf(text)])) else None
  }

  function WifiCell(w: T.Wifi, text: string): Option<Cell> {
    if text == "ssid" && w.ssid.Some? then Some(Word(w.ssid.value))
    else if text == "rssi_dbm" && w.rssiDbm.Some? then Some(Code(w.rssiDbm.value))
    else if text == "rssi_raw" && w.rssiRaw.Some? then Some(Word(w.rssiRaw.value))
    else None
  }

  function CellAt(d: T.DashboardReading, key: (Bucket, string)): Option<Cell> {
    match key.0
    case Power => Keyed(d.base.power, key.1, on => Flag(on))
    case MeterWatts => Keyed(d.base.meterWatts, key.1, w => Number(w))
    case EnergyRaw => Keyed(d.base.energyRaw, key.1, raw => Code(raw))
    case EnergyKwh => Keyed(d.extras.energyKwh, key.1, e => Number(e))
    case TemperatureC => Keyed(d.extras.temperature, key.1, t => Number(t))
    case Alarms => Keyed(d.base.alarms, key.1, alarm => Alert(alarm))
    case Configuration => Keyed(d.base.cutoffs, key.1, cutoff => Limit(cutoff))
    case Standby => Keyed(d.base.standby, key.1, idle => Rest(idle))
    case Wifi => WifiCell(d.base.wifi, key.1)
  }

  const BUCKETS: set<Bucket> :=
    {Power, MeterWatts, EnergyRaw, EnergyKwh, TemperatureC, Alarms, Configuration, Standby, Wifi}

  const KEY_TEXTS: set<string> := {"0", "1", "2", "3", "4", "ssid", "rssi_dbm", "rssi_raw"}

  /** The nine dictionaries of a delta. */
  function CellsOf(d: T.DashboardReading): (cells: map<(Bucket, string), Cell>)
    ensures forall key :: key in cells <==> CellAt(d, key).Some?
    ensures forall key :: key in cells ==> cells[key] == CellAt(d, key).value
  {
    assert forall key :: CellAt(d, key).Some? ==> key.0 in BUCKETS && key.1 in KEY_TEXTS by {
      forall key | CellAt(d, key).Some? ensures key.0 in BUCKETS && key.1 in KEY_TEXTS {
        if IsSelText(key.1) {
          assert key.1 == [key.1[0]];
        }
      }
    }
    map bucket, text | bucket in BUCKETS && text in KEY_TEXTS && CellAt(d, (bucket, text)).Some? ::
      (bucket, text) := CellAt(d, (bucket, text)).value
  }

  const SEL_TEXTS: seq<string> := ["0", "1", "2", "3", "4"]

  /** The cell that a reading, if there is one, belongs in. */
  function CellIf<V>(m: map<T.Sel, V>, n: T.Sel, cell: V -> Cell): Option<Cell> {
    if n in m then Some(cell(m[n])) else None
  }

  /** Eight dictionaries are keyed by the selectors "0" to "4" and hold what was read for each. */
  lemma CellsByName(d: T.DashboardReading, n: T.Sel)
    ensures CellAt(d, (Power, SEL_TEXTS[n])) == CellIf(d.base.power, n, on => Flag(on))
    ensures CellAt(d, (MeterWatts, SEL_TEXTS[n])) == CellIf(d.base.meterWatts, n, w => Number(w))
    ensures CellAt(d, (EnergyRaw, SEL_TEXTS[n])) == CellIf(d.base.energyRaw, n, raw => Code(raw))
    ensures CellAt(d, (EnergyKwh, SEL_TEXTS[n])) == CellIf(d.extras.energyKwh, n, e => Number(e))
    ensures CellAt(d, (TemperatureC, SEL_TEXTS[n])) == CellIf(d.extras.temperature, n, t => Number(t))
    ensures CellAt(d, (Alarms, SEL_TEXTS[n])) == CellIf(d.base.alarms, n, alarm => Alert(alarm))
    ensures CellAt(d, (Configuration, SEL_TEXTS[n])) == CellIf(d.base.cutoffs, n, cutoff => Limit(cutoff))
    ensures CellAt(d, (Standby, SEL_TEXTS[n])) == CellIf(d.base.standby, n, idle => Rest(idle))
  {
    assert IsSelText(SEL_TEXTS[n]) && SelOf(SEL_TEXTS[n]) == n;
  }

  /** The one of the wireless network is keyed by three names of its own. */
  lemma WifiByName(d: T.DashboardReading)
    ensures var w := d.base.wifi;
            && CellAt(d, (Wifi, "ssid")) == Celled(w.ssid, ssid => Word(ssid))
            && CellAt(d, (Wifi, "rssi_dbm")) == Celled(w.rssiDbm, dbm => Code(dbm))
            && CellAt(d, (Wifi, "rssi_raw")) == Celled(w.rssiRaw, raw => Word(raw))
  {
  }

  /** There are no other keys. */
  lemma NoOtherCells(d: T.DashboardReading, key: (Bucket, string))
    ensures CellAt(d, key).Some? && key.0 != Wifi ==> key.1 in SEL_TEXTS
    ensures CellAt(d, key).Some? && key.0 == Wifi ==> key.1 == "ssid" || key.1 == "rssi_dbm" || key.1 == "rssi_raw"
  {
    if CellAt(d, key).Some? && key.0 != Wifi {
      assert IsSelText(key.1);
      assert key.1 == SEL_TEXTS[SelOf(key.1)];
    }
  }

  /** A device that does not say its type is a multitap. */
  function NamesOf(device: DeviceInfo): map<Name, string> {
    map[DeviceId := device.id, DeviceType := if device.kind != "" then device.kind else "MULTITAP"]
  }

  const NO_DELTA := Delta(map[], false, None, false, None, map[])

  /** parse_onem2m_message; None stands for an empty result, which the feed does not merge. */
  function DeltaOf(num: T.Numerals, m: Message): Option<Delta> {
    match m
    case Irrelevant => None
    case Bootstrap(device) =>
      Some(NO_DELTA.(bootstrap := true,
                     names := if device.Some? then NamesOf(device.value) else map[]))
    case Telemetry(params, report) =>
      var d := T.MessageMeaning(num, params, Lists(m));
      var delta := NO_DELTA.(cmdReport := if report.Some? then Some(report.value.summary) else None,
                             vtpeSeen := d.extras.vtpeSeen, voltage := d.extras.voltage, cells := CellsOf(d));
      if delta == NO_DELTA then None else Some(delta)
  }

  method ParseOneM2M(num: T.Numerals, m: Message) returns (delta: Option<Delta>)
    ensures delta == DeltaOf(num, m)
  {
    hide T.MessageMeaning, CellsOf;
    var out := NO_DELTA;
    if m.Bootstrap? {
      if m.device.Some? {
        var kind := if m.device.value.kind != "" then m.device.value.kind else "MULTITAP";
        out := out.(names := map[DeviceId := m.device.value.id, DeviceType := kind]);
      }
      out := out.(bootstrap := true);
      return Some(out);
    }
    if !m.Telemetry? {
      return None;
    }
    if m.report.Some? {
      out := out.(cmdReport := Some(m.report.value.summary));
    }
    var d := T.ParseMessage(num, m.params, Lists(m));
    out := out.(cells := CellsOf(d));
    if d.extras.voltage.Some? {
      out := out.(voltage := d.extras.voltage);
    }
    if d.extras.vtpeSeen {
      out := out.(vtpeSeen := true);
    }
    return if out == NO_DELTA then None else Some(out);
  }

  // ---- what a message says, read off its raw fields ---------------------------------------

  predicate AllFourValid(m: Message) {
    && T.ParseHexList(Lists(m).v, 1).Some? && T.ParseHexList(Lists(m).t, 4).Some?
    && T.ParseHexList(Lists(m).p, 5).Some? && T.ParseHexList(Lists(m).e, 5).Some?
  }

  function VoltageSaid(m: Message): Option<real> {
    match T.ParseHexList(Lists(m).v, 1)
    case Some(v) => Some(v[0] as real / 1000.0)
    case None => None
  }

  function Celled<V>(value: Option<V>, cell: V -> Cell): Option<Cell> {
    match value case Some(v) => Some(cell(v)) case None => None
  }

  /** A valid p speaks for every outlet and the total; without one the last parameter that speaks does. */
  function MeterSaid(num: T.Numerals, m: Message, n: T.Sel): Option<real> {
    match T.ParseHexList(Lists(m).p, 5)
    case Some(vals) => Some((if n == 0 then vals[4] else vals[n - 1]) as real / 1000.0)
    case None => T.Last(Params(m), (p, n) => T.MeterSays(num, p, n), n)
  }

  function EnergySaid(m: Message, n: T.Sel): Option<real> {
    match T.ParseHexList(Lists(m).e, 5)
    case Some(vals) => Some((if n == 0 then vals[4] else vals[n - 1]) as real / 1000.0)
    case None => None
  }

  function TemperatureSaid(m: Message, n: T.Sel): Option<real> {
    match T.ParseHexList(Lists(m).t, 4)
    case Some(vals) => if n > 0 then Some(vals[n - 1] as real) else None
    case None => None
  }

  /** The value a message carries for one cell. */
  function CellSaid(num: T.Numerals, m: Message, key: (Bucket, string)): Option<Cell> {
    if key.0 == Wifi then WifiCell(T.WifiOf(num, Params(m)), key.1)
    else if !IsSelText(key.1) then None
    else
      var n := SelOf(key.1);
      match key.0
      case Power => Celled(T.Last(Params(m), T.PowerSays, n), on => Flag(on))
      case MeterWatts => Celled(MeterSaid(num, m, n), w => Number(w))
      case EnergyRaw => Celled(T.Last(Params(m), (p, n) => T.EnergySays(num, p, n), n), raw => Code(raw))
      case EnergyKwh => Celled(EnergySaid(m, n), e => Number(e))
      case TemperatureC => Celled(TemperatureSaid(m, n), t => Number(t))
      case Alarms => Celled(T.Last(Params(m), (p, n) => T.AlarmSays(num, T.DASHBOARD.alarm, p, n), n), alarm => Alert(alarm))
      case Configuration =>
        Celled(T.Last(Params(m), (p, n) => T.CutoffSays(T.DASHBOARD.cutoff, p, n), n), cutoff => Limit(cutoff))
      case Standby => Celled(T.Last(Params(m), (p, n) => T.StandbySays(num, T.DASHBOARD.idle, p, n), n), idle => Rest(idle))
  }

  /** The delta has in each cell exactly what the message says. */
  lemma DeltaSaysTheMessage(num: T.Numerals, m: Message, key: (Bucket, string))
    ensures match DeltaOf(num, m)
            case Some(d) =>
              && (if key in d.cells then Some(d.cells[key]) else None) == CellSaid(num, m, key)
              && d.voltage == VoltageSaid(m) && (d.vtpeSeen <==> AllFourValid(m))
            case None => CellSaid(num, m, key) == None && VoltageSaid(m) == None && !AllFourValid(m)
  {
    hide T.MessageMeaning, CellSaid, CellAt, AllFourValid, VoltageSaid;
    if m.Telemetry? {
      var d := T.MessageMeaning(num, m.params, Lists(m));
      CellAtSaid(num, m, key);
      ExtrasSaid(num, m);
      assert key in CellsOf(d) <==> CellAt(d, key).Some?;
    } else {
      NothingSaid(num, m, key);
    }
  }

  lemma ExtrasSaid(num: T.Numerals, m: Message)
    requires m.Telemetry?
    ensures var extras := T.MessageMeaning(num, m.params, Lists(m)).extras;
            extras.voltage == VoltageSaid(m) && (extras.vtpeSeen <==> AllFourValid(m))
  {
    hide T.Meaning, T.ParseHexList;
  }

  lemma CellAtSaid(num: T.Numerals, m: Message, key: (Bucket, string))
    requires m.Telemetry?
    ensures CellAt(T.MessageMeaning(num, m.params, Lists(m)), key) == CellSaid(num, m, key)
  {
    hide T.MessageMeaning, CellAt, CellSaid;
    if key.0 == MeterWatts || key.0 == EnergyKwh || key.0 == TemperatureC {
      ListCellSaid(num, m, key);
    } else {
      ParamCellSaid(num, m, key);
    }
  }

  lemma ListCellSaid(num: T.Numerals, m: Message, key: (Bucket, string))
    requires m.Telemetry? && (key.0 == MeterWatts || key.0 == EnergyKwh || key.0 == TemperatureC)
    ensures CellAt(T.MessageMeaning(num, m.params, Lists(m)), key) == CellSaid(num, m, key)
  {
    hide T.PowerSays, T.MeterSays, T.EnergySays, T.AlarmSays, T.CutoffSays, T.StandbySays, T.Last, T.ParseHexList, T.WifiOf;
  }

  lemma ParamCellSaid(num: T.Numerals, m: Message, key: (Bucket, string))
    requires m.Telemetry? && key.0 != MeterWatts && key.0 != EnergyKwh && key.0 != TemperatureC
    ensures CellAt(T.MessageMeaning(num, m.params, Lists(m)), key) == CellSaid(num, m, key)
  {
    hide T.PowerSays, T.MeterSays, T.EnergySays, T.AlarmSays, T.CutoffSays, T.StandbySays, T.Last, T.ParseHexList, T.WifiOf;
    hide T.Remap, T.Temperatures, MeterSaid, EnergySaid, TemperatureSaid;
  }

  lemma NothingSaid(num: T.Numerals, m: Message, key: (Bucket, string))
    requires !m.Telemetry?
    ensures CellSaid(num, m, key) == None && VoltageSaid(m) == None && !AllFourValid(m)
  {
  }

  // ---- a sequence of messages ------------------------------------------------------------------

  datatype Receipt = Receipt(message: Message, at: real)

  function Hear(num: T.Numerals, e: Entry, r: Receipt): Entry {
    match DeltaOf(num, r.message)
    case Some(d) => MergeDelta(e, d, r.at)
    case None => e
  }

  function HearAll(num: T.Numerals, e: Entry, receipts: seq<Receipt>): Entry {
    if receipts == [] then e else Hear(num, HearAll(num, e, receipts[..|receipts| - 1]), receipts[|receipts| - 1])
  }

  function CellsSaid(num: T.Numerals, receipts: seq<Receipt>, key: (Bucket, string)): (readings: seq<Option<Cell>>)
    ensures |readings| == |receipts|
  {
    seq(|receipts|, i requires 0 <= i < |receipts| => CellSaid(num, receipts[i].message, key))
  }

  function VoltagesSaid(receipts: seq<Receipt>): (readings: seq<Option<real>>)
    ensures |readings| == |receipts|
  {
    seq(|receipts|, i requires 0 <= i < |receipts| => VoltageSaid(receipts[i].message))
  }

  lemma HearOne(num: T.Numerals, e: Entry, r: Receipt, key: (Bucket, string))
    ensures var next := Hear(num, e, r);
            && CellOf(next, key)
               == (if CellSaid(num, r.message, key).Some? then CellSaid(num, r.message, key) else CellOf(e, key))
            && next.voltage == (if VoltageSaid(r.message).Some? then VoltageSaid(r.message) else e.voltage)
            && (next.vtpeSeen <==> e.vtpeSeen || AllFourValid(r.message))
  {
    hide CellSaid, VoltageSaid, AllFourValid, DeltaOf, Overlay;
    DeltaSaysTheMessage(num, r.message, key);
  }

  /** Every telemetry cell of a stored entry is the last valid value that any message carried for it -- for the
      meters: the last message with a valid p or a readable meter field, its p where it had one. */
  lemma {:induction false} CellIsLastValidValue(num: T.Numerals, e: Entry, receipts: seq<Receipt>, key: (Bucket, string))
    ensures CellOf(HearAll(num, e, receipts), key) == LastReading(CellsSaid(num, receipts, key), CellOf(e, key))
  {
    hide Hear, CellSaid;
    if receipts != [] {
      var init, said := receipts[..|receipts| - 1], CellsSaid(num, receipts, key);
      CellIsLastValidValue(num, e, init, key);
      assert said[..|said| - 1] == CellsSaid(num, init, key);
      HearOne(num, HearAll(num, e, init), receipts[|receipts| - 1], key);
    }
  }

  /** So is the voltage, from the last valid v. */
  lemma {:induction false} VoltageIsLastValidValue(num: T.Numerals, e: Entry, receipts: seq<Receipt>)
    ensures HearAll(num, e, receipts).voltage == LastReading(VoltagesSaid(receipts), e.voltage)
  {
    hide Hear, VoltageSaid;
    if receipts != [] {
      var init, said := receipts[..|receipts| - 1], VoltagesSaid(receipts);
      VoltageIsLastValidValue(num, e, init);
      assert said[..|said| - 1] == VoltagesSaid(init);
      HearOne(num, HearAll(num, e, init), receipts[|receipts| - 1], (Power, "0"));
    }
  }

  /** The marker that brings the voltage, temperature and energy entities to Home Assistant is set exactly if
      one single message carried v, t, p and e, all valid; partial ones never add up to it, nothing unsets it. */
  lemma {:induction false} VtpeSeenMeansOneFullReport(num: T.Numerals, e: Entry, receipts: seq<Receipt>)
    ensures HearAll(num, e, receipts).vtpeSeen
       <==> e.vtpeSeen || exists i :: 0 <= i < |receipts| && AllFourValid(receipts[i].message)
  {
    hide Hear, AllFourValid;
    if receipts != [] {
      var init, last := receipts[..|receipts| - 1], receipts[|receipts| - 1];
      VtpeSeenMeansOneFullReport(num, e, init);
      HearOne(num, HearAll(num, e, init), last, (Power, "0"));
      assert receipts == init + [last];
      if exists i :: 0 <= i < |receipts| && AllFourValid(receipts[i].message) {
        var i :| 0 <= i < |receipts| && AllFourValid(receipts[i].message);
        assert i < |init| ==> init[i] == receipts[i];
      }
      assert AllFourValid(last.message) ==> AllFourValid(receipts[|receipts| - 1].message);
    }
  }

  /** A message without its malformed lists. */
  function WithoutMalformed(m: Message): Message {
    if m.Telemetry? && m.report.Some? then m.(report := Some(m.report.value.(lists := T.Valid(Lists(m))))) else m
  }

  function AllWithoutMalformed(receipts: seq<Receipt>): (r: seq<Receipt>)
    ensures |r| == |receipts|
  {
    seq(|receipts|, i requires 0 <= i < |receipts| => Receipt(WithoutMalformed(receipts[i].message), receipts[i].at))
  }

  lemma MalformedListsSayNothing(num: T.Numerals, m: Message)
    ensures DeltaOf(num, WithoutMalformed(m)) == DeltaOf(num, m)
  {
    if m.Telemetry? && m.report.Some? {
      T.ListsOverParameters(num, m.params, Lists(m));
      hide T.MessageMeaning, T.Valid;
    }
  }

  /** Malformed lists leave no trace: the entry is as if they had not been there. */
  lemma {:induction false} MalformedListsLeaveNoTrace(num: T.Numerals, e: Entry, receipts: seq<Receipt>)
    ensures HearAll(num, e, AllWithoutMalformed(receipts)) == HearAll(num, e, receipts)
  {
    hide DeltaOf, MergeDelta, WithoutMalformed;
    if receipts != [] {
      var init, clean := receipts[..|receipts| - 1], AllWithoutMalformed(receipts);
      MalformedListsLeaveNoTrace(num, e, init);
      assert clean[..|clean| - 1] == AllWithoutMalformed(init);
      MalformedListsSayNothing(num, receipts[|receipts| - 1].message);
    }
  }

  /** A valid p decides the stored meters of all outlets and of the total, whatever was stored and whatever
      the parameters of the same message say. */
  lemma ValidPDecidesTheMeters(num: T.Numerals, e: Entry, r: Receipt, text: string)
    requires IsSelText(text) && T.ParseHexList(Lists(r.message).p, 5).Some?
    ensures var vals, n := T.ParseHexList(Lists(r.message).p, 5).value, SelOf(text);
            CellOf(Hear(num, e, r), (MeterWatts, text))
            == Some(Number((if n == 0 then vals[4] else vals[n - 1]) as real / 1000.0))
  {
    hide T.ParseHexList, Hear;
    HearOne(num, e, r, (MeterWatts, text));
  }

  // ---- bootstraps and reports -------------------------------------------------------------------

  /** A bootstrap marks the entry as bootstrapped and connected, names its id if it gives one and its type in any
      case, and leaves all telemetry alone. */
  lemma BootstrapIsHeard(num: T.Numerals, e: Entry, device: DeviceInfo, at: real)
    ensures var next := Hear(num, e, Receipt(Bootstrap(Some(device)), at));
            && next.mefSeen && next.mqttConnected && next.lastSeen == Some(at)
            && NameOf(next.names, DeviceId) == (if device.id != "" then Some(device.id) else NameOf(e.names, DeviceId))
            && NameOf(next.names, DeviceType) == Some(if device.kind != "" then device.kind else "MULTITAP")
            && next.cells == e.cells && next.voltage == e.voltage && next.vtpeSeen == e.vtpeSeen
            && NameOf(next.names, LastCmdReport) == NameOf(e.names, LastCmdReport)
  {
    hide Overlay;
    var delta := DeltaOf(num, Bootstrap(Some(device))).value;
    OverlaidName(e.names, delta.names, DeviceId);
    OverlaidName(e.names, delta.names, DeviceType);
    OverlaidName(e.names, delta.names, LastCmdReport);
  }

  /** A message with a cmd_report leaves that on record, and is seen even if it carries nothing else; the names of the
      device stay. A message that carries nothing at all leaves no trace. */
  lemma ReportIsHeard(num: T.Numerals, e: Entry, m: Message, at: real, name: Name)
    requires m.Telemetry?
    ensures var next := Hear(num, e, Receipt(m, at));
            && (m.report.Some? && m.report.value.summary != "" ==>
                  next.lastSeen == Some(at) && NameOf(next.names, LastCmdReport) == Some(m.report.value.summary))
            && (name != LastCmdReport ==> NameOf(next.names, name) == NameOf(e.names, name))
            && next.mefSeen == e.mefSeen && next.mqttConnected == e.mqttConnected
            && (m.report == None && (forall key :: CellSaid(num, m, key) == None) ==> next == e)
  {
    hide Overlay, T.MessageMeaning, CellSaid, CellsOf;
    OverlaidName(e.names, map[], name);
    OverlaidName(e.names, map[], LastCmdReport);
    if m.report == None && (forall key :: CellSaid(num, m, key) == None) {
      SilentMessage(num, m);
    }
  }

  lemma SilentMessage(num: T.Numerals, m: Message)
    requires m.Telemetry? && m.report == None && forall key :: CellSaid(num, m, key) == None
    ensures DeltaOf(num, m) == None
  {
    var d := T.MessageMeaning(num, m.params, Lists(m));
    ExtrasSaid(num, m);
    NoListsNoExtras(m);
    hide T.MessageMeaning, CellSaid, CellAt, VoltageSaid, AllFourValid;
    forall key ensures CellAt(d, key) == None {
      CellAtSaid(num, m, key);
    }
    assert CellsOf(d) == map[];
  }

  lemma NoListsNoExtras(m: Message)
    requires m.Telemetry? && m.report == None
    ensures VoltageSaid(m) == None && !AllFourValid(m)
  {
  }
}
