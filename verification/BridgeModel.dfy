/** What one iteration of the bridge's main loop publishes (bridge/mttl_ha_bridge.py, HaBridge), as
    functions over the suppression caches, the link to the broker and the broker's retained messages. */
module BridgeModel {
  import opened Options
  import opened Discovery
  import A = Availability

  // ---- the telemetry that is shown ------------------------------------------

  /** How numbers are printed: ".2f" for watts, ".1f" for volts and degrees, ".3f" for kWh.
      Only equality of the printed texts ever matters. */
  datatype Format = Format(watts: real -> string, tenths: real -> string, kwh: real -> string)

  datatype Entry = Entry(
    power: map<int, bool>,
    meterWatts: map<int, real>,
    vtpeSeen: bool,
    voltage: Option<real>,
    temperature: map<int, real>,
    energy: map<int, real>)

  function Lookup<T>(m: map<int, T>, n: int): Option<T> {
    if n in m then Some(m[n]) else None
  }

  /** The reported total, else the sum of the outlets that reported, else nothing. */
  function PowerWatts(meter: map<int, real>, n: nat): Option<real> {
    if n in meter then Some(meter[n])
    else if n == 0 && (1 in meter || 2 in meter || 3 in meter || 4 in meter) then
      Some(Lookup(meter, 1).GetOr(0.0) + Lookup(meter, 2).GetOr(0.0)
           + Lookup(meter, 3).GetOr(0.0) + Lookup(meter, 4).GetOr(0.0))
    else None
  }

  /** The text an entry gives for a field, if it gives one. */
  function Shown(fmt: Format, e: Entry, field: Field): Option<string> {
    match field
    case Outlet(n) => if n in e.power then Some(if e.power[n] then "ON" else "OFF") else None
    case Power(n) => (match PowerWatts(e.meterWatts, n) case Some(w) => Some(fmt.watts(w)) case None => None)
    case Voltage => (match e.voltage case Some(v) => Some(fmt.tenths(v)) case None => None)
    case Temp(n) => if n in e.temperature then Some(fmt.tenths(e.temperature[n])) else None
    case Energy(n) => if n in e.energy then Some(fmt.kwh(e.energy[n])) else None
    case Availability => None
  }

  function StateFields(e: Entry): seq<Field> {
    if e.vtpeSeen then BASE + VTPE else BASE
  }

  // ---- the link to the broker -----------------------------------------------

  datatype Msg = Msg(topic: Topic, payload: Payload)

  /** `sent` is what reached the broker in the present connection. */
  datatype Link = Link(up: bool, needRepublish: bool, retained: map<Topic, Payload>, sent: seq<Msg>, clock: nat)

  /** What may happen to the connection just before a publish. */
  datatype Weather = Calm | Drops | Returns

  function Dropped(l: Link): Link {
    if l.up then l.(up := false, retained := l.retained[BridgeStatus := Text("offline")]) else l
  }

  function Connected(l: Link): Link {
    if l.up then l else l.(up := true, needRepublish := true, sent := [])
  }

  /** Time passes: the weather of this publish point. */
  function Pass(l: Link, weather: nat -> Weather): Link {
    var next := l.(clock := l.clock + 1);
    match weather(l.clock)
    case Calm => next
    case Drops => Dropped(next)
    case Returns => Connected(next)
  }

  function Send(l: Link, weather: nat -> Weather, topic: Topic, payload: Payload, retain: bool): Link {
    var now := Pass(l, weather);
    if !now.up then now
    else now.(retained := if retain then now.retained[topic := payload] else now.retained,
              sent := now.sent + [Msg(topic, payload)])
  }

  // ---- the caches -------------------------------------------------------------

  type Record = map<Field, string>

  datatype Hub = Hub(lastPub: map<Slug, Record>, vtpePub: map<Slug, bool>, link: Link)

  /** `eager` is false for the bridge; true gives the reference that publishes without suppression. */
  datatype Cfg = Cfg(fmt: Format, weather: nat -> Weather, eager: bool)

  function RecordOf(h: Hub, slug: Slug): Record {
    if slug in h.lastPub then h.lastPub[slug] else map[]
  }

  function Touch(h: Hub, slug: Slug): Hub {
    h.(lastPub := h.lastPub[slug := RecordOf(h, slug)])
  }

  /** Everything about a device is retained, except its voltage. */
  predicate IsRetained(field: Field) {
    field != Voltage
  }

  function Put(h: Hub, cfg: Cfg, slug: Slug, field: Field, text: string, force: bool): Hub {
    var rec := RecordOf(h, slug);
    if force || cfg.eager || field !in rec || rec[field] != text then
      h.(lastPub := h.lastPub[slug := rec[field := text]],
         link := Send(h.link, cfg.weather, State(slug, field), Text(text), IsRetained(field)))
    else
      h.(link := Pass(h.link, cfg.weather))
  }

  function PutFields(h: Hub, cfg: Cfg, slug: Slug, e: Entry, fields: seq<Field>, force: bool): Hub {
    if fields == [] then h
    else
      var before := PutFields(h, cfg, slug, e, fields[..|fields| - 1], force);
      var field := fields[|fields| - 1];
      match Shown(cfg.fmt, e, field)
      case Some(text) => Put(before, cfg, slug, field, text, force)
      case None => before
  }

  function PublishDeviceState(h: Hub, cfg: Cfg, slug: Slug, e: Entry, force: bool): Hub {
    PutFields(Touch(h, slug), cfg, slug, e, StateFields(e), force)
  }

  function SetAvailability(h: Hub, cfg: Cfg, slug: Slug, online: bool): Hub {
    Put(Touch(h, slug), cfg, slug, Availability, OnlineText(online), false)
  }

  function OnlineText(online: bool): string {
    if online then "online" else "offline"
  }

  function SendAll(l: Link, weather: nat -> Weather, items: seq<Item>): Link {
    if items == [] then l
    else
      var last := items[|items| - 1];
      Send(SendAll(l, weather, items[..|items| - 1]), weather, last.topic, last.payload, true)
  }

  function PublishDiscovery(h: Hub, cfg: Cfg, slug: Slug, mac: string, vtpe: bool): Hub {
    h.(link := SendAll(h.link, cfg.weather, Declarations(slug, mac, vtpe, DeclaredFields(vtpe))),
       vtpePub := h.vtpePub[slug := vtpe])
  }

  // ---- one iteration is a list of jobs ----------------------------------------

  /** A device as this iteration sees it. */
  datatype Dev = Dev(slug: Slug, cid: string, mac: string, entry: Entry)

  /** When a job sends the discovery configs. */
  datatype Declare = Never | Always | IfUncached | IfVtpeMissing

  /** Which state a job publishes. */
  datatype Show = Nothing | Changed | Everything

  datatype Job = Job(dev: Dev, declare: Declare, announce: Option<bool>, show: Show)

  predicate Declares(h: Hub, job: Job) {
    match job.declare
    case Never => false
    case Always => true
    case IfUncached => job.dev.slug !in h.lastPub
    case IfVtpeMissing => job.dev.entry.vtpeSeen && !VtpePublished(h, job.dev.slug) && h.link.up
  }

  predicate VtpePublished(h: Hub, slug: Slug) {
    slug in h.vtpePub && h.vtpePub[slug]
  }

  function Declared(h: Hub, cfg: Cfg, job: Job): Hub {
    var d := job.dev;
    if Declares(h, job) then PublishDiscovery(h, cfg, d.slug, d.mac, d.entry.vtpeSeen) else h
  }

  function Announced(h: Hub, cfg: Cfg, job: Job): Hub {
    if job.announce.Some? then SetAvailability(h, cfg, job.dev.slug, job.announce.value) else h
  }

  function Displayed(h: Hub, cfg: Cfg, job: Job): Hub {
    if job.show == Nothing then h
    else PublishDeviceState(h, cfg, job.dev.slug, job.dev.entry, job.show == Everything)
  }

  function Do(h: Hub, cfg: Cfg, job: Job): Hub {
    if job.declare == IfVtpeMissing && !Declares(h, job) then h
    else Displayed(Announced(Declared(h, cfg, job), cfg, job), cfg, job)
  }

  function DoAll(h: Hub, cfg: Cfg, jobs: seq<Job>): Hub {
    if jobs == [] then h else Do(DoAll(h, cfg, jobs[..|jobs| - 1]), cfg, jobs[|jobs| - 1])
  }

  predicate IsUp(slots: map<Slug, A.Slot>, slug: Slug) {
    A.PhaseOf(slots, slug) == A.Up
  }

  predicate IsPresent(slots: map<Slug, A.Slot>, slug: Slug) {
    A.PhaseOf(slots, slug) == A.Up || A.PhaseOf(slots, slug) == A.Grace
  }

  /** After a (re)connect: everything about every device, from empty caches. */
  function RepublishJob(d: Dev, slots: map<Slug, A.Slot>): Job {
    Job(d, Always, Some(IsUp(slots, d.slug)), if IsUp(slots, d.slug) then Everything else Nothing)
  }

  /** A device whose full v/t/p/e telemetry has not been declared yet. */
  function VtpeJob(d: Dev, slots: map<Slug, A.Slot>): Job {
    Job(d, IfVtpeMissing, None, if IsUp(slots, d.slug) then Everything else Nothing)
  }

  function EventJob(d: Dev, event: A.Event): Job {
    match event
    case Offline => Job(d, Never, Some(false), Nothing)
    case _ => Job(d, IfUncached, Some(true), Everything)
  }

  function TickJob(d: Dev, slots: map<Slug, A.Slot>): Job {
    Job(d, Never, None, if IsUp(slots, d.slug) then Changed else Nothing)
  }

  function RepublishJobs(devs: seq<Dev>, slots: map<Slug, A.Slot>): seq<Job> {
    seq(|devs|, i requires 0 <= i < |devs| => RepublishJob(devs[i], slots))
  }

  function VtpeJobs(devs: seq<Dev>, slots: map<Slug, A.Slot>): seq<Job> {
    seq(|devs|, i requires 0 <= i < |devs| => VtpeJob(devs[i], slots))
  }

  function TickJobs(devs: seq<Dev>, slots: map<Slug, A.Slot>): seq<Job> {
    seq(|devs|, i requires 0 <= i < |devs| => TickJob(devs[i], slots))
  }

  ghost predicate DistinctSlugs(devs: seq<Dev>) {
    forall i, j :: 0 <= i < j < |devs| ==> devs[i].slug != devs[j].slug
  }

  function Slugs(devs: seq<Dev>): set<Slug> {
    set d | d in devs :: d.slug
  }

  function DevOf(devs: seq<Dev>, slug: Slug): (d: Dev)
    requires slug in Slugs(devs)
    ensures d in devs && d.slug == slug
  {
    if devs[|devs| - 1].slug == slug then devs[|devs| - 1] else DevOf(devs[..|devs| - 1], slug)
  }

  ghost predicate EventsKnown(events: seq<(Slug, A.Event)>, devs: seq<Dev>) {
    forall i :: 0 <= i < |events| ==> events[i].0 in Slugs(devs)
  }

  function EventJobs(devs: seq<Dev>, events: seq<(Slug, A.Event)>): seq<Job>
    requires EventsKnown(events, devs)
  {
    seq(|events|, i requires 0 <= i < |events| => EventJob(DevOf(devs, events[i].0), events[i].1))
  }

  predicate Republishes(h: Hub) {
    h.link.needRepublish && h.link.up
  }

  /** Caches cleared, request honoured, and the bridge's own status announced. */
  function Cleared(h: Hub, cfg: Cfg): Hub {
    Hub(map[], map[], Send(h.link.(needRepublish := false), cfg.weather, BridgeStatus, Text("online"), true))
  }

  function Opened(h: Hub, cfg: Cfg): Hub {
    if Republishes(h) then Cleared(h, cfg) else h
  }

  function Plan(republish: bool, devs: seq<Dev>, before: map<Slug, A.Slot>, events: seq<(Slug, A.Event)>,
                after: map<Slug, A.Slot>, tick: bool): seq<Job>
    requires EventsKnown(events, devs)
  {
    (if republish then RepublishJobs(devs, before) else [])
    + VtpeJobs(devs, before)
    + EventJobs(devs, events)
    + (if tick then TickJobs(devs, after) else [])
  }

  function Iterate(h: Hub, cfg: Cfg, devs: seq<Dev>, before: map<Slug, A.Slot>, events: seq<(Slug, A.Event)>,
                   after: map<Slug, A.Slot>, tick: bool): Hub
    requires EventsKnown(events, devs)
  {
    DoAll(Opened(h, cfg), cfg, Plan(Republishes(h), devs, before, events, after, tick))
  }

  lemma {:induction false} DoAllConcat(h: Hub, cfg: Cfg, a: seq<Job>, b: seq<Job>)
    ensures DoAll(h, cfg, a + b) == DoAll(DoAll(h, cfg, a), cfg, b)
  {
    if b == [] {
      assert a + b == a;
    } else {
      assert (a + b)[..|a + b| - 1] == a + b[..|b| - 1];
      DoAllConcat(h, cfg, a, b[..|b| - 1]);
    }
  }

  lemma {:induction false} PutFieldsConcat(h: Hub, cfg: Cfg, slug: Slug, e: Entry, a: seq<Field>,
        b: seq<Field>, force: bool)
    ensures PutFields(h, cfg, slug, e, a + b, force)
         == PutFields(PutFields(h, cfg, slug, e, a, force), cfg, slug, e, b, force)
  {
    if b == [] {
      assert a + b == a;
    } else {
      assert (a + b)[..|a + b| - 1] == a + b[..|b| - 1];
      PutFieldsConcat(h, cfg, slug, e, a, b[..|b| - 1], force);
    }
  }

  lemma DoNone(h: Hub, cfg: Cfg)
    ensures DoAll(h, cfg, []) == h
  {
  }

  lemma DoOne(h: Hub, cfg: Cfg, job: Job)
    ensures DoAll(h, cfg, [job]) == Do(h, cfg, job)
  {
    assert [job][..0] == [];
  }

  /** A field without a text is passed over. */
  lemma {:induction false} NothingShown(h: Hub, cfg: Cfg, slug: Slug, e: Entry, fields: seq<Field>, force: bool)
    requires forall field :: field in fields ==> Shown(cfg.fmt, e, field) == None
    ensures PutFields(h, cfg, slug, e, fields, force) == h
  {
    if fields != [] {
      NothingShown(h, cfg, slug, e, fields[..|fields| - 1], force);
    }
  }
}
