/** One device's state in devices.json, and how two states or a state and a telemetry delta are folded
    together (dashboard/mttl_telemetry.py). */
module DeviceEntry {
  import opened Options
  import T = Telemetry

  datatype Name =
    | DeviceId | DeviceType | Ip | ClientId | Mac | Serial | Model
    | LastTopic | LastCmdReport | PendingControl | LastControlResult

  datatype Bucket =
    | Power | MeterWatts | EnergyRaw | EnergyKwh | TemperatureC | Alarms | Configuration | Standby | Wifi

  datatype Cell =
    | Flag(on: bool)
    | Number(value: real)
    | Code(raw: int)
    | Alert(alarm: T.Alarm)
    | Limit(cutoff: T.Cutoff)
    | Rest(idle: T.Idle)
    | Word(text: string)

  /** The key first_seen of an entry: not there, there with None, or there with a time. */
  datatype Date = Absent | Undated | At(time: real)

  /** A full-shape entry, apart from first_seen. A name without a text is None; the nine telemetry buckets are one map. */
  datatype Entry = Entry(
    names: map<Name, string>,
    firstSeen: Date,
    lastSeen: Option<real>,
    lastMsg: Option<real>,
    sessionStart: Option<real>,
    mefSeen: bool,
    mqttConnected: bool,
    vtpeSeen: bool,
    sessionEpoch: int,
    reconnects: int,
    voltage: Option<real>,
    cells: map<(Bucket, string), Cell>,
    lastInject: Option<string>)

  const NEW_ENTRY := Entry(map[], Undated, None, None, None, false, false, false, 0, 0, None, map[], None)

  /** Python's truth of entry.get(name). */
  predicate Has(names: map<Name, string>, name: Name) {
    name in names && names[name] != ""
  }

  // ---- merge_entry --------------------------------------------------------------

  /** entry.setdefault("first_seen", now) */
  function SetDefault(d: Date, now: real): Date {
    if d.Absent? then At(now) else d
  }

  function Earliest(a: Date, b: Date): Date {
    if b.At? && (!a.At? || b.time < a.time) then b else a
  }

  function Latest(a: Option<real>, b: Option<real>): Option<real> {
    if b.Some? && (a == None || b.value > a.value) then b else a
  }

  function Max(a: int, b: int): int {
    if b > a then b else a
  }

  /** `dst` wins wherever it says something. */
  function MergeNames(dst: map<Name, string>, src: map<Name, string>): map<Name, string> {
    map name | name in dst.Keys + src.Keys && (name in dst || Has(src, name)) ::
      if !Has(dst, name) && Has(src, name) then src[name] else dst[name]
  }

  function Merge(dst: Entry, src: Entry): Entry {
    Entry(MergeNames(dst.names, src.names),
          Earliest(dst.firstSeen, src.firstSeen),
          Latest(dst.lastSeen, src.lastSeen),
          Latest(dst.lastMsg, src.lastMsg),
          Latest(dst.sessionStart, src.sessionStart),
          dst.mefSeen || src.mefSeen,
          dst.mqttConnected || src.mqttConnected,
          dst.vtpeSeen || src.vtpeSeen,
          Max(dst.sessionEpoch, src.sessionEpoch),
          Max(dst.reconnects, src.reconnects),
          if dst.voltage == None then src.voltage else dst.voltage,
          src.cells + dst.cells,
          dst.lastInject)
  }

  method MergeCellsInto(dst: map<(Bucket, string), Cell>, src: map<(Bucket, string), Cell>)
    returns (cells: map<(Bucket, string), Cell>)
    ensures cells == src + dst
  {
    cells := dst;
    var rest := src.Keys;
    while rest != {}
      invariant rest <= src.Keys
      invariant forall key :: key in cells <==> key in dst || (key in src && key !in rest)
      invariant forall key :: key in cells ==> cells[key] == if key in dst then dst[key] else src[key]
      decreases |rest|
    {
      var key :| key in rest;
      if key !in cells {
        cells := cells[key := src[key]];
      }
      rest := rest - {key};
    }
  }

  method MergeEntry(dst: Entry, src: Entry) returns (r: Entry)
    ensures r == Merge(dst, src)
  {
    hide MergeNames;
    var names := MergeNamesInto(dst.names, src.names);
    var cells := MergeCellsInto(dst.cells, src.cells);
    r := Entry(names, Earliest(dst.firstSeen, src.firstSeen), Latest(dst.lastSeen, src.lastSeen),
               Latest(dst.lastMsg, src.lastMsg), Latest(dst.sessionStart, src.sessionStart),
               dst.mefSeen || src.mefSeen, dst.mqttConnected || src.mqttConnected, dst.vtpeSeen || src.vtpeSeen,
               Max(dst.sessionEpoch, src.sessionEpoch), Max(dst.reconnects, src.reconnects),
               if dst.voltage.Some? then dst.voltage else src.voltage, cells, dst.lastInject);
  }

  function NameOf(names: map<Name, string>, name: Name): Option<string> {
    if name in names then Some(names[name]) else None
  }

  /** `a` unless it says nothing and `b` does. */
  function Prefer(a: Option<string>, b: Option<string>): Option<string> {
    if a.GetOr("") == "" && b.GetOr("") != "" then b else a
  }

  lemma MergedName(a: map<Name, string>, b: map<Name, string>, name: Name)
    ensures NameOf(MergeNames(a, b), name) == Prefer(NameOf(a, name), NameOf(b, name))
  {
  }

  lemma SameNames(a: map<Name, string>, b: map<Name, string>)
    requires forall name :: NameOf(a, name) == NameOf(b, name)
    ensures a == b
  {
    assert forall name :: name in a <==> NameOf(a, name).Some?;
    assert forall name :: name in b <==> NameOf(b, name).Some?;
    assert a.Keys == b.Keys;
    assert forall name :: name in a ==> a[name] == NameOf(a, name).value;
  }

  method MergeNamesInto(dst: map<Name, string>, src: map<Name, string>) returns (names: map<Name, string>)
    ensures names == MergeNames(dst, src)
  {
    hide MergeNames;
    names := dst;
    var rest := src.Keys;
    while rest != {}
      invariant rest <= src.Keys
      invariant forall name ::
                  NameOf(names, name)
                  == if !Has(dst, name) && name !in rest && Has(src, name) then Some(src[name]) else NameOf(dst, name)
      decreases |rest|
    {
      var name :| name in rest;
      if !Has(names, name) && Has(src, name) {
        names := names[name := src[name]];
      }
      rest := rest - {name};
    }
    forall name ensures NameOf(names, name) == NameOf(MergeNames(dst, src), name) {
      MergedName(dst, src, name);
    }
    SameNames(names, MergeNames(dst, src));
  }

  lemma MergeNamesAssociative(a: map<Name, string>, b: map<Name, string>, c: map<Name, string>)
    ensures MergeNames(MergeNames(a, b), c) == MergeNames(a, MergeNames(b, c))
  {
    hide MergeNames;
    forall name ensures NameOf(MergeNames(MergeNames(a, b), c), name) == NameOf(MergeNames(a, MergeNames(b, c)), name) {
      MergedName(a, b, name);
      MergedName(b, c, name);
      MergedName(MergeNames(a, b), c, name);
      MergedName(a, MergeNames(b, c), name);
    }
    SameNames(MergeNames(MergeNames(a, b), c), MergeNames(a, MergeNames(b, c)));
  }

  lemma UnionAssociative(a: map<(Bucket, string), Cell>, b: map<(Bucket, string), Cell>, c: map<(Bucket, string), Cell>)
    ensures c + (b + a) == (c + b) + a
  {
  }

  /** Merging is associative. */
  lemma MergeAssociative(a: Entry, b: Entry, c: Entry)
    ensures Merge(Merge(a, b), c) == Merge(a, Merge(b, c))
  {
    hide MergeNames;
    MergeNamesAssociative(a.names, b.names, c.names);
    UnionAssociative(a.cells, b.cells, c.cells);
  }

  /** Merging an entry with itself changes nothing. */
  lemma MergeIdempotent(a: Entry)
    ensures Merge(a, a) == a
  {
    assert MergeNames(a.names, a.names) == a.names;
  }

  /** Nothing that is known is lost: every name and cell of either side is in the result, the
      destination's where both have one. */
  lemma MergeKeepsEverything(dst: Entry, src: Entry)
    ensures forall name :: Has(dst.names, name) || Has(src.names, name) ==>
              Has(Merge(dst, src).names, name)
              && Merge(dst, src).names[name] == if Has(dst.names, name) then dst.names[name] else src.names[name]
    ensures forall key :: key in dst.cells || key in src.cells ==>
              key in Merge(dst, src).cells
              && Merge(dst, src).cells[key] == if key in dst.cells then dst.cells[key] else src.cells[key]
    ensures forall name :: NameOf(Merge(dst, src).names, name) == Prefer(NameOf(dst.names, name), NameOf(src.names, name))
    ensures Merge(dst, src).cells.Keys == dst.cells.Keys + src.cells.Keys
  {
  }

  /** `c` is one of `a` and `b` if either is there, and not before either. */
  predicate IsLater(c: Option<real>, a: Option<real>, b: Option<real>) {
    && (c == a || c == b) && (c == None <==> a == None && b == None)
    && (a.Some? ==> c.value >= a.value) && (b.Some? ==> c.value >= b.value)
  }

  /** The freshest times, the first sighting, the larger counts, any mark that either has, and the destination's
      voltage and last command where it has one. */
  lemma MergeTakesTheFreshest(dst: Entry, src: Entry)
    ensures var m := Merge(dst, src);
            && IsLater(m.lastSeen, dst.lastSeen, src.lastSeen) && IsLater(m.lastMsg, dst.lastMsg, src.lastMsg)
            && IsLater(m.sessionStart, dst.sessionStart, src.sessionStart)
            && (m.firstSeen == dst.firstSeen || m.firstSeen == src.firstSeen)
            && (dst.firstSeen.At? ==> m.firstSeen.At? && m.firstSeen.time <= dst.firstSeen.time)
            && (src.firstSeen.At? ==> m.firstSeen.At? && m.firstSeen.time <= src.firstSeen.time)
            && m.sessionEpoch >= dst.sessionEpoch && m.sessionEpoch >= src.sessionEpoch
            && (m.sessionEpoch == dst.sessionEpoch || m.sessionEpoch == src.sessionEpoch)
            && m.reconnects >= dst.reconnects && m.reconnects >= src.reconnects
            && (m.reconnects == dst.reconnects || m.reconnects == src.reconnects)
            && (m.mefSeen <==> dst.mefSeen || src.mefSeen) && (m.mqttConnected <==> dst.mqttConnected || src.mqttConnected)
            && (m.vtpeSeen <==> dst.vtpeSeen || src.vtpeSeen)
            && (dst.voltage.Some? ==> m.voltage == dst.voltage) && (dst.voltage == None ==> m.voltage == src.voltage)
            && m.lastInject == dst.lastInject
  {
    hide MergeNames;
  }

  function MergeAll(entries: seq<Entry>): Entry
    requires entries != []
  {
    if |entries| == 1 then entries[0] else Merge(MergeAll(entries[..|entries| - 1]), entries[|entries| - 1])
  }

  /** So folding any number of entries together does not depend on how they are grouped. */
  lemma {:induction false} GroupingDoesNotMatter(a: seq<Entry>, b: seq<Entry>)
    requires a != [] && b != []
    ensures MergeAll(a + b) == Merge(MergeAll(a), MergeAll(b))
  {
    hide Merge;
    assert (a + b)[..|a + b| - 1] == a + b[..|b| - 1];
    if |b| == 1 {
      assert a + b[..0] == a;
    } else {
      GroupingDoesNotMatter(a, b[..|b| - 1]);
      MergeAssociative(MergeAll(a), MergeAll(b[..|b| - 1]), b[|b| - 1]);
    }
  }

  // ---- merge_delta -----------------------------------------------------------------

  /** What one message says. `names` holds device_id, device_type, mac, serial and model only. */
  datatype Delta = Delta(
    names: map<Name, string>,
    bootstrap: bool,
    cmdReport: Option<string>,
    vtpeSeen: bool,
    voltage: Option<real>,
    cells: map<(Bucket, string), Cell>)

  const DELTA_NAMES: set<Name> := {DeviceId, DeviceType, Mac, Serial, Model}

  function Overlay(names: map<Name, string>, more: map<Name, string>): map<Name, string> {
    map name | name in names.Keys + more.Keys && (name in names || (name in DELTA_NAMES && Has(more, name))) ::
      if name in DELTA_NAMES && Has(more, name) then more[name] else names[name]
  }

  function MergeDelta(e: Entry, d: Delta, now: real): Entry {
    var names := Overlay(e.names, d.names);
    e.(names := if d.cmdReport.Some? && d.cmdReport.value != "" then names[LastCmdReport := d.cmdReport.value] else names,
       lastSeen := Some(now),
       firstSeen := if e.firstSeen.At? then e.firstSeen else At(now),
       mefSeen := e.mefSeen || d.bootstrap,
       mqttConnected := e.mqttConnected || d.bootstrap,
       vtpeSeen := e.vtpeSeen || d.vtpeSeen,
       voltage := if d.voltage.Some? then d.voltage else e.voltage,
       cells := e.cells + d.cells)
  }

  /** The loops of merge_delta. */
  method MergeDeltaInto(e: Entry, d: Delta, now: real) returns (r: Entry)
    ensures r == MergeDelta(e, d, now)
  {
    hide Overlay;
    var names := OverlayNames(e.names, d.names);
    if d.cmdReport.Some? && d.cmdReport.value != "" {
      names := names[LastCmdReport := d.cmdReport.value];
    }
    var cells := OverlayCells(e.cells, d.cells);
    r := e.(lastSeen := Some(now), firstSeen := if e.firstSeen.At? then e.firstSeen else At(now),
            names := names, cells := cells);
    if d.bootstrap {
      r := r.(mefSeen := true, mqttConnected := true);
    }
    r := r.(vtpeSeen := if d.vtpeSeen then true else r.vtpeSeen, voltage := if d.voltage.Some? then d.voltage else r.voltage);
  }

  lemma OverlaidName(names: map<Name, string>, more: map<Name, string>, name: Name)
    ensures NameOf(Overlay(names, more), name)
         == if name in DELTA_NAMES && Has(more, name) then Some(more[name]) else NameOf(names, name)
  {
  }

  method OverlayNames(names: map<Name, string>, more: map<Name, string>) returns (r: map<Name, string>)
    ensures r == Overlay(names, more)
  {
    hide Overlay;
    r := names;
    var rest := DELTA_NAMES;
    while rest != {}
      invariant rest <= DELTA_NAMES
      invariant forall name ::
                  NameOf(r, name)
                  == if name in DELTA_NAMES && name !in rest && Has(more, name) then Some(more[name]) else NameOf(names, name)
      decreases |rest|
    {
      var name :| name in rest;
      if Has(more, name) {
        r := r[name := more[name]];
      }
      rest := rest - {name};
    }
    forall name ensures NameOf(r, name) == NameOf(Overlay(names, more), name) {
      OverlaidName(names, more, name);
    }
    SameNames(r, Overlay(names, more));
  }

  method OverlayCells(cells: map<(Bucket, string), Cell>, more: map<(Bucket, string), Cell>)
    returns (r: map<(Bucket, string), Cell>)
    ensures r == cells + more
  {
    r := cells;
    var rest := more.Keys;
    while rest != {}
      invariant rest <= more.Keys
      invariant r.Keys == cells.Keys + (more.Keys - rest)
      invariant forall key :: key in r ==> r[key] == if key in more.Keys - rest then more[key] else cells[key]
      decreases |rest|
    {
      var key :| key in rest;
      r := r[key := more[key]];
      rest := rest - {key};
    }
  }

  /** The most recent of some readings that is there, else the one to begin with. */
  function LastReading<T>(readings: seq<Option<T>>, start: Option<T>): Option<T> {
    if readings == [] then start
    else if readings[|readings| - 1].Some? then readings[|readings| - 1]
    else LastReading(readings[..|readings| - 1], start)
  }

  function CellOf(e: Entry, key: (Bucket, string)): Option<Cell> {
    if key in e.cells then Some(e.cells[key]) else None
  }
}
