/** What Home Assistant is told about a device, read off its telemetry: which text belongs on which topic, that every
    message of every iteration carries it, and that a state tick leaves all of it at the broker
    (bridge/mttl_ha_bridge.py, _publish_device_state, power_watts and their neighbours). */
module BridgeMirror {
  import opened Options
  import opened Discovery
  import opened StickyIdentity
  import opened BridgeModel
  import opened BridgePublishing
  import opened BridgeOrdering
  import opened BridgeRun
  import A = Availability

  // ---- what an entry tells -----------------------------------------------------------

  /** The sum of what the outlets 1 to n reported. */
  function ReportedSum(meter: map<int, real>, n: nat): real {
    if n == 0 then 0.0 else ReportedSum(meter, n - 1) + if n in meter then meter[n] else 0.0
  }

  predicate SomeOutletReported(meter: map<int, real>) {
    exists n :: 1 <= n <= 4 && n in meter
  }

  /** The text an entry tells about a field. */
  predicate Tells(fmt: Format, e: Entry, field: Field, text: string) {
    match field
    case Outlet(n) => n <= 4 && n in e.power && text == (if e.power[n] then "ON" else "OFF")
    case Power(n) =>
      && n <= 4
      && if n in e.meterWatts then text == fmt.watts(e.meterWatts[n])
         else n == 0 && SomeOutletReported(e.meterWatts) && text == fmt.watts(ReportedSum(e.meterWatts, 4))
    case Voltage => e.vtpeSeen && e.voltage.Some? && text == fmt.tenths(e.voltage.value)
    case Temp(n) => e.vtpeSeen && 1 <= n <= 4 && n in e.temperature && text == fmt.tenths(e.temperature[n])
    case Energy(n) => e.vtpeSeen && n <= 4 && n in e.energy && text == fmt.kwh(e.energy[n])
    case Availability => false
  }

  /** The fields a device has: volts, degrees and energy only once it has sent a full report. */
  predicate HasField(e: Entry, field: Field) {
    match field
    case Outlet(n) => n <= 4
    case Power(n) => n <= 4
    case Voltage => e.vtpeSeen
    case Temp(n) => e.vtpeSeen && 1 <= n <= 4
    case Energy(n) => e.vtpeSeen && n <= 4
    case Availability => false
  }

  lemma FieldsPublished(e: Entry, field: Field)
    ensures field in StateFields(e) <==> HasField(e, field)
    ensures field in DeclaredFields(e.vtpeSeen) <==> HasField(e, field)
  {
    DeclaredExactlyWhatIsPublished(e.vtpeSeen);
    hide DeclaredFields;
    match field
    case Outlet(n) => assert n <= 4 ==> OUTLETS[n] == field && field in OUTLETS;
    case Power(n) => assert n <= 4 ==> POWERS[n] == field && field in POWERS;
    case Voltage => assert [Voltage][0] == field && field in [Voltage];
    case Temp(n) => assert 1 <= n <= 4 ==> TEMPS[n - 1] == field && field in TEMPS;
    case Energy(n) => assert n <= 4 ==> ENERGIES[n] == field && field in ENERGIES;
    case Availability =>
  }

  lemma ReportedSums(meter: map<int, real>)
    ensures ReportedSum(meter, 4)
         == Lookup(meter, 1).GetOr(0.0) + Lookup(meter, 2).GetOr(0.0)
            + Lookup(meter, 3).GetOr(0.0) + Lookup(meter, 4).GetOr(0.0)
    ensures SomeOutletReported(meter) <==> 1 in meter || 2 in meter || 3 in meter || 4 in meter
  {
    assert ReportedSum(meter, 1) == Lookup(meter, 1).GetOr(0.0);
    assert ReportedSum(meter, 2) == ReportedSum(meter, 1) + Lookup(meter, 2).GetOr(0.0);
    assert ReportedSum(meter, 3) == ReportedSum(meter, 2) + Lookup(meter, 3).GetOr(0.0);
  }

  /** What the bridge publishes of an entry is what it tells. */
  lemma PublishedIsTold(fmt: Format, e: Entry, field: Field, text: string)
    ensures field in StateFields(e) && Shown(fmt, e, field) == Some(text) <==> Tells(fmt, e, field, text)
  {
    FieldsPublished(e, field);
    ReportedSums(e.meterWatts);
    hide StateFields, ReportedSum, SomeOutletReported;
  }

  // ---- every message is true ---------------------------------------------------------------

  /** A message that may be sent in an iteration over these devices: the bridge's own status; the config of a field
      that one of them has; its availability; or, for one that may be shown, what its telemetry tells. */
  ghost predicate IsTrue(msg: Msg, fmt: Format, devs: seq<Dev>, shown: set<Slug>) {
    match msg.topic
    case BridgeStatus => msg.payload == Text("online") || msg.payload == Text("offline")
    case Config(slug, field) =>
      exists d :: d in devs && d.slug == slug && HasField(d.entry, field) && msg.payload == ConfigOf(d, field)
    case State(slug, field) =>
      exists d :: d in devs && d.slug == slug && msg.payload.Text? &&
                  if field == Availability then msg.payload.text == "online" || msg.payload.text == "offline"
                  else slug in shown && Tells(fmt, d.entry, field, msg.payload.text)
  }

  /** The config of a field: its state topic, for a switch its command topic, the two availability topics of which
      both must be online, the device, and a version only for firmware that reports volts, degrees and energy. */
  function ConfigOf(d: Dev, field: Field): Payload {
    Entity(State(d.slug, field), if field.Outlet? then Some(field.n) else None,
           [BridgeStatus, State(d.slug, Availability)], d.mac, if d.entry.vtpeSeen then Some("1.0.106") else None)
  }

  ghost function Truths(fmt: Format, devs: seq<Dev>, shown: set<Slug>): iset<Msg> {
    iset msg: Msg | IsTrue(msg, fmt, devs, shown)
  }

  /** A connection that is lost leaves the bridge retained as offline. */
  predicate OfflineIfDown(l: Link) {
    !l.up ==> BridgeStatus in l.retained && l.retained[BridgeStatus] == Text("offline")
  }

  /** Whatever is new in what was sent, or in what is retained, is one of these messages; no voltage is retained;
      and the bridge is not left as online without a connection. */
  ghost predicate Accounted(before: Link, after: Link, allowed: iset<Msg>) {
    && (forall i :: 0 <= i < |after.sent| ==> after.sent[i] in before.sent || after.sent[i] in allowed)
    && (forall t :: t in after.retained ==>
          || (t in before.retained && after.retained[t] == before.retained[t])
          || (Msg(t, after.retained[t]) in allowed && !(t.State? && t.field == Voltage)))
    && (forall t :: t in before.retained ==> t in after.retained)
    && (OfflineIfDown(before) ==> OfflineIfDown(after))
  }

  lemma AccountedTransitive(a: Link, b: Link, c: Link, allowed: iset<Msg>)
    requires Accounted(a, b, allowed) && Accounted(b, c, allowed)
    ensures Accounted(a, c, allowed)
  {
    forall i | 0 <= i < |c.sent| ensures c.sent[i] in a.sent || c.sent[i] in allowed {
      if c.sent[i] in b.sent {
        var j :| 0 <= j < |b.sent| && b.sent[j] == c.sent[i];
      }
    }
  }

  const OFFLINE := Msg(BridgeStatus, Text("offline"))

  lemma SendAccounted(l: Link, weather: nat -> Weather, topic: Topic, payload: Payload, retain: bool, allowed: iset<Msg>)
    requires OFFLINE in allowed && Msg(topic, payload) in allowed
    requires topic.State? && topic.field == Voltage ==> !retain
    ensures Accounted(l, Send(l, weather, topic, payload, retain), allowed)
  {
  }

  lemma PassAccounted(l: Link, weather: nat -> Weather, allowed: iset<Msg>)
    requires OFFLINE in allowed
    ensures Accounted(l, Pass(l, weather), allowed)
  {
  }

  lemma AccountedSame(l: Link, allowed: iset<Msg>)
    ensures Accounted(l, l, allowed)
  {
  }

  lemma {:induction false} SendAllAccounted(l: Link, weather: nat -> Weather, items: seq<Item>, allowed: iset<Msg>)
    requires OFFLINE in allowed
    requires forall i :: 0 <= i < |items| ==> items[i].topic.Config? && Msg(items[i].topic, items[i].payload) in allowed
    ensures Accounted(l, SendAll(l, weather, items), allowed)
  {
    hide Accounted, Send;
    if items == [] {
      AccountedSame(l, allowed);
    } else {
      var init, last := items[..|items| - 1], items[|items| - 1];
      SendAllAccounted(l, weather, init, allowed);
      SendAccounted(SendAll(l, weather, init), weather, last.topic, last.payload, true, allowed);
      AccountedTransitive(l, SendAll(l, weather, init), SendAll(l, weather, items), allowed);
    }
  }

  lemma PutAccounted(h: Hub, cfg: Cfg, slug: Slug, field: Field, text: string, force: bool, allowed: iset<Msg>)
    requires OFFLINE in allowed && Msg(State(slug, field), Text(text)) in allowed
    ensures Accounted(h.link, Put(h, cfg, slug, field, text, force).link, allowed)
  {
    hide Accounted, Send, Pass;
    SendAccounted(h.link, cfg.weather, State(slug, field), Text(text), IsRetained(field), allowed);
    PassAccounted(h.link, cfg.weather, allowed);
  }

  lemma {:induction false} PutFieldsAccounted(h: Hub, cfg: Cfg, slug: Slug, e: Entry, fields: seq<Field>, force: bool,
        allowed: iset<Msg>)
    requires OFFLINE in allowed
    requires forall field, text :: field in fields && Shown(cfg.fmt, e, field) == Some(text) ==>
               Msg(State(slug, field), Text(text)) in allowed
    ensures Accounted(h.link, PutFields(h, cfg, slug, e, fields, force).link, allowed)
  {
    hide Accounted, Put, Shown;
    if fields == [] {
      AccountedSame(h.link, allowed);
    } else {
      var init, field := fields[..|fields| - 1], fields[|fields| - 1];
      PutFieldsAccounted(h, cfg, slug, e, init, force, allowed);
      var mid := PutFields(h, cfg, slug, e, init, force);
      if Shown(cfg.fmt, e, field).Some? {
        PutAccounted(mid, cfg, slug, field, Shown(cfg.fmt, e, field).value, force, allowed);
        AccountedTransitive(h.link, mid.link, PutFields(h, cfg, slug, e, fields, force).link, allowed);
      }
    }
  }

  /** A job about one of the devices, which it may show. */
  predicate MayDo(job: Job, devs: seq<Dev>, shown: set<Slug>) {
    job.dev in devs && (job.show != Nothing ==> job.dev.slug in shown)
  }

  lemma DeclaredAccounted(h: Hub, cfg: Cfg, job: Job, devs: seq<Dev>, shown: set<Slug>)
    requires job.dev in devs
    ensures Accounted(h.link, Declared(h, cfg, job).link, Truths(cfg.fmt, devs, shown))
  {
    hide Accounted, SendAll, DeclaredFields, Declares, Tells;
    var d := job.dev;
    var fields := DeclaredFields(d.entry.vtpeSeen);
    var items := Declarations(d.slug, d.mac, d.entry.vtpeSeen, fields);
    forall i | 0 <= i < |fields| ensures HasField(d.entry, fields[i]) {
      FieldsPublished(d.entry, fields[i]);
    }
    hide HasField;
    SendAllAccounted(h.link, cfg.weather, items, Truths(cfg.fmt, devs, shown));
    AccountedSame(h.link, Truths(cfg.fmt, devs, shown));
  }

  lemma AnnouncedAccounted(h: Hub, cfg: Cfg, job: Job, devs: seq<Dev>, shown: set<Slug>)
    requires job.dev in devs
    ensures Accounted(h.link, Announced(h, cfg, job).link, Truths(cfg.fmt, devs, shown))
  {
    hide Accounted, Put, Tells;
    var slug := job.dev.slug;
    AccountedSame(h.link, Truths(cfg.fmt, devs, shown));
    if job.announce.Some? {
      PutAccounted(Touch(h, slug), cfg, slug, Availability, OnlineText(job.announce.value), false,
                   Truths(cfg.fmt, devs, shown));
    }
  }

  lemma DisplayedAccounted(h: Hub, cfg: Cfg, job: Job, devs: seq<Dev>, shown: set<Slug>)
    requires MayDo(job, devs, shown)
    ensures Accounted(h.link, Displayed(h, cfg, job).link, Truths(cfg.fmt, devs, shown))
  {
    hide Accounted, PutFields, Shown, StateFields, Tells;
    var d := job.dev;
    AccountedSame(h.link, Truths(cfg.fmt, devs, shown));
    if job.show == Nothing {
      return;
    }
    forall field, text | field in StateFields(d.entry) && Shown(cfg.fmt, d.entry, field) == Some(text)
      ensures Msg(State(d.slug, field), Text(text)) in Truths(cfg.fmt, devs, shown)
    {
      PublishedIsTold(cfg.fmt, d.entry, field, text);
      NoAvailabilityTold(cfg.fmt, d.entry, text);
    }
    PutFieldsAccounted(Touch(h, d.slug), cfg, d.slug, d.entry, StateFields(d.entry), job.show == Everything,
                       Truths(cfg.fmt, devs, shown));
  }

  lemma NoAvailabilityTold(fmt: Format, e: Entry, text: string)
    ensures !Tells(fmt, e, Availability, text)
  {
  }

  lemma DoAccounted(h: Hub, cfg: Cfg, job: Job, devs: seq<Dev>, shown: set<Slug>)
    requires MayDo(job, devs, shown)
    ensures Accounted(h.link, Do(h, cfg, job).link, Truths(cfg.fmt, devs, shown))
  {
    hide Accounted, Declared, Announced, Displayed, Declares, Truths;
    var h1 := Declared(h, cfg, job);
    var h2 := Announced(h1, cfg, job);
    AccountedSame(h.link, Truths(cfg.fmt, devs, shown));
    DeclaredAccounted(h, cfg, job, devs, shown);
    AnnouncedAccounted(h1, cfg, job, devs, shown);
    DisplayedAccounted(h2, cfg, job, devs, shown);
    AccountedTransitive(h.link, h1.link, h2.link, Truths(cfg.fmt, devs, shown));
    AccountedTransitive(h.link, h2.link, Displayed(h2, cfg, job).link, Truths(cfg.fmt, devs, shown));
  }

  lemma {:induction false} DoAllAccounted(h: Hub, cfg: Cfg, jobs: seq<Job>, devs: seq<Dev>, shown: set<Slug>)
    requires forall i :: 0 <= i < |jobs| ==> MayDo(jobs[i], devs, shown)
    ensures Accounted(h.link, DoAll(h, cfg, jobs).link, Truths(cfg.fmt, devs, shown))
  {
    hide Accounted, Do, Truths;
    if jobs == [] {
      AccountedSame(h.link, Truths(cfg.fmt, devs, shown));
    } else {
      var init := jobs[..|jobs| - 1];
      DoAllAccounted(h, cfg, init, devs, shown);
      DoAccounted(DoAll(h, cfg, init), cfg, jobs[|jobs| - 1], devs, shown);
      AccountedTransitive(h.link, DoAll(h, cfg, init).link, DoAll(h, cfg, jobs).link, Truths(cfg.fmt, devs, shown));
    }
  }

  lemma StatusIsTrue(fmt: Format, devs: seq<Dev>, shown: set<Slug>)
    ensures OFFLINE in Truths(fmt, devs, shown) && Msg(BridgeStatus, Text("online")) in Truths(fmt, devs, shown)
  {
  }

  /** The devices that are up before the iteration's observation or after it. */
  function UpAround(devs: seq<Dev>, before: map<Slug, A.Slot>, after: map<Slug, A.Slot>): set<Slug> {
    set slug | slug in Slugs(devs) && (IsUp(before, slug) || IsUp(after, slug))
  }

  /** A device that comes online is up afterwards. */
  lemma OnlineIsUp(events: seq<(Slug, A.Event)>, devs: seq<Dev>, live: set<Slug>, before: map<Slug, A.Slot>,
                   after: map<Slug, A.Slot>, now: real, grace: real)
    requires EventsOf(events, devs, live, before, after, now, grace)
    ensures forall i :: 0 <= i < |events| && events[i].1 != A.Offline ==> IsUp(after, events[i].0)
  {
    EventsMatch(events, devs, live, before, after, now, grace);
    forall i | 0 <= i < |events| && events[i].1 != A.Offline ensures IsUp(after, events[i].0) {
      assert events[i] in events;
    }
  }

  /** What an iteration is made of: only devices that are up around it are shown. */
  lemma PlanShows(republish: bool, devs: seq<Dev>, before: map<Slug, A.Slot>, events: seq<(Slug, A.Event)>,
                  after: map<Slug, A.Slot>, tick: bool)
    requires EventsKnown(events, devs)
    requires forall i :: 0 <= i < |events| && events[i].1 != A.Offline ==> IsUp(after, events[i].0)
    ensures forall i :: 0 <= i < |Plan(republish, devs, before, events, after, tick)| ==>
              MayDo(Plan(republish, devs, before, events, after, tick)[i], devs, UpAround(devs, before, after))
  {
    hide IsUp;
    var shown := UpAround(devs, before, after);
    assert forall d :: d in devs ==> d.slug in Slugs(devs);
    forall i | 0 <= i < |devs|
      ensures MayDo(RepublishJob(devs[i], before), devs, shown) && MayDo(VtpeJob(devs[i], before), devs, shown)
      ensures MayDo(TickJob(devs[i], after), devs, shown)
    {
      assert devs[i] in devs;
    }
    forall i | 0 <= i < |events| ensures MayDo(EventJobs(devs, events)[i], devs, shown) {
    }
    AllOf(if republish then RepublishJobs(devs, before) else [], VtpeJobs(devs, before), EventJobs(devs, events),
          if tick then TickJobs(devs, after) else [], devs, shown);
  }

  lemma AllOf(a: seq<Job>, b: seq<Job>, c: seq<Job>, d: seq<Job>, devs: seq<Dev>, shown: set<Slug>)
    requires forall i :: 0 <= i < |a| ==> MayDo(a[i], devs, shown)
    requires forall i :: 0 <= i < |b| ==> MayDo(b[i], devs, shown)
    requires forall i :: 0 <= i < |c| ==> MayDo(c[i], devs, shown)
    requires forall i :: 0 <= i < |d| ==> MayDo(d[i], devs, shown)
    ensures forall i :: 0 <= i < |a + b + c + d| ==> MayDo((a + b + c + d)[i], devs, shown)
  {
    hide MayDo;
  }

  /** In any weather, an iteration sends and retains nothing but true messages about its devices, and shows only those
      that are up around it. */
  lemma IterateAccounted(h: Hub, cfg: Cfg, devs: seq<Dev>, live: set<Slug>, before: map<Slug, A.Slot>,
                         events: seq<(Slug, A.Event)>, after: map<Slug, A.Slot>, now: real, grace: real, tick: bool)
    requires EventsOf(events, devs, live, before, after, now, grace)
    ensures Accounted(h.link, Iterate(h, cfg, devs, before, events, after, tick).link,
                      Truths(cfg.fmt, devs, UpAround(devs, before, after)))
  {
    hide Accounted, DoAll, Truths, Send, MayDo, Plan, UpAround;
    var shown := UpAround(devs, before, after);
    var jobs := Plan(Republishes(h), devs, before, events, after, tick);
    OnlineIsUp(events, devs, live, before, after, now, grace);
    PlanShows(Republishes(h), devs, before, events, after, tick);
    StatusIsTrue(cfg.fmt, devs, shown);
    AccountedSame(h.link, Truths(cfg.fmt, devs, shown));
    var cleared := h.link.(needRepublish := false);
    SendAccounted(cleared, cfg.weather, BridgeStatus, Text("online"), true, Truths(cfg.fmt, devs, shown));
    SameMessages(h.link, cleared, Opened(h, cfg).link, Truths(cfg.fmt, devs, shown));
    DoAllAccounted(Opened(h, cfg), cfg, jobs, devs, shown);
    AccountedTransitive(h.link, Opened(h, cfg).link, DoAll(Opened(h, cfg), cfg, jobs).link, Truths(cfg.fmt, devs, shown));
  }

  lemma SameMessages(a: Link, b: Link, c: Link, allowed: iset<Msg>)
    requires a.sent == b.sent && a.retained == b.retained && a.up == b.up
    ensures Accounted(b, c, allowed) <==> Accounted(a, c, allowed)
  {
  }

  // ---- theorem: what the broker is told in every iteration of every run ---------------------------

  /** In every run, every message an iteration delivers, and everything it changes at the broker, is true of the
      snapshot it read: a config of a device of the snapshot, its availability, or, for a device that is up before or after
      the iteration, a text its telemetry tells. A voltage is never retained. And a connection lost in it leaves the
      bridge as offline. */
  lemma EveryMessageIsTrue(states: seq<Sys>, settings: Settings, steps: seq<Step>, i: nat)
    requires IsRun(states, settings, steps) && i < |steps| && steps[i].Loop?
    ensures var before, after := states[i].hub.link, states[i + 1].hub.link;
            var fmt, devs := settings.cfg.fmt, SceneOf(states[i], settings, steps[i].input).devs;
            var up := UpAround(devs, states[i].slots, states[i + 1].slots);
            && (forall k :: 0 <= k < |after.sent| ==> after.sent[k] in before.sent || IsTrue(after.sent[k], fmt, devs, up))
            && (forall t :: t in after.retained ==>
                  || (t in before.retained && after.retained[t] == before.retained[t])
                  || (IsTrue(Msg(t, after.retained[t]), fmt, devs, up) && !(t.State? && t.field == Voltage)))
            && (forall t :: t in before.retained ==> t in after.retained)
            && (before.up && !after.up ==>
                  BridgeStatus in after.retained && after.retained[BridgeStatus] == Text("offline"))
  {
    hide Iterate, ResolveAll, IsTrue, UpAround;
    var s, input := states[i], steps[i].input;
    InputEvents(s, settings, input);
    var scene := SceneOf(s, settings, input);
    IterateAccounted(s.hub, settings.cfg, scene.devs, scene.live, s.slots, EventsIn(s, settings, input),
                     SlotsAfter(s, settings, input), input.now, settings.grace, Ticks(s, settings, input));
  }

  /** So what no device with that slug tells, or what belongs to a device that is not up, is left alone: nothing is sent
      on its topic, and what the broker retains there stays. */
  lemma SilentFieldIsLeft(states: seq<Sys>, settings: Settings, steps: seq<Step>, i: nat, slug: Slug, field: Field)
    requires IsRun(states, settings, steps) && i < |steps| && steps[i].Loop? && field != Availability
    requires || (!IsUp(states[i].slots, slug) && !IsUp(states[i + 1].slots, slug))
             || forall d, text :: d in SceneOf(states[i], settings, steps[i].input).devs && d.slug == slug ==>
                  !Tells(settings.cfg.fmt, d.entry, field, text)
    ensures var before, after, t := states[i].hub.link, states[i + 1].hub.link, State(slug, field);
            && (forall k :: 0 <= k < |after.sent| && after.sent[k].topic == t ==> after.sent[k] in before.sent)
            && (t in after.retained <==> t in before.retained)
            && (t in before.retained ==> after.retained[t] == before.retained[t])
  {
    hide Next, Tells, SceneOf, IsUp;
    EveryMessageIsTrue(states, settings, steps, i);
    var before, after, t := states[i].hub.link, states[i + 1].hub.link, State(slug, field);
    var devs := SceneOf(states[i], settings, steps[i].input).devs;
    var up := UpAround(devs, states[i].slots, states[i + 1].slots);
    forall payload ensures !IsTrue(Msg(t, payload), settings.cfg.fmt, devs, up) {
    }
    hide IsTrue;
    forall k | 0 <= k < |after.sent| && after.sent[k].topic == t ensures after.sent[k] in before.sent {
      assert after.sent[k] == Msg(t, after.sent[k].payload);
    }
  }

  /** In every run, after an iteration with a state tick that ends connected with nothing pending, the broker retains for
      every device of the snapshot that is up: each switch that was reported; each watt meter that was reported; for
      the whole strip the reported total, else the sum of exactly the outlets that reported, if any did; and once full
      telemetry was seen, each temperature and each energy that was reported. */
  lemma TickShowsTelemetry(states: seq<Sys>, settings: Settings, steps: seq<Step>, i: nat, d: Dev, n: nat)
    requires IsRun(states, settings, steps) && Fresh(states[0]) && n <= 4
    requires i < |steps| && steps[i].Loop? && Ticks(states[i], settings, steps[i].input)
    requires d in SceneOf(states[i], settings, steps[i].input).devs && IsUp(states[i + 1].slots, d.slug)
    requires states[i + 1].hub.link.up && !states[i + 1].hub.link.needRepublish
    ensures var e, fmt := d.entry, settings.cfg.fmt;
            && (n in e.power ==> RetainedAs(states[i + 1], State(d.slug, Outlet(n)), if e.power[n] then "ON" else "OFF"))
            && (n in e.meterWatts ==> RetainedAs(states[i + 1], State(d.slug, Power(n)), fmt.watts(e.meterWatts[n])))
            && (0 !in e.meterWatts && SomeOutletReported(e.meterWatts) ==>
                  RetainedAs(states[i + 1], State(d.slug, Power(0)), fmt.watts(ReportedSum(e.meterWatts, 4))))
            && (e.vtpeSeen && 1 <= n && n in e.temperature ==>
                  RetainedAs(states[i + 1], State(d.slug, Temp(n)), fmt.tenths(e.temperature[n])))
            && (e.vtpeSeen && n in e.energy ==> RetainedAs(states[i + 1], State(d.slug, Energy(n)), fmt.kwh(e.energy[n])))
  {
    hide Fresh, RetainedAs, SceneOf, Ticks, IsUp, SomeOutletReported, ReportedSum, Tells, Next;
    var e, fmt := d.entry, settings.cfg.fmt;
    WhatIsTold(fmt, e, n);
    if n in e.power {
      ToldIsRetained(states, settings, steps, i, d, Outlet(n), if e.power[n] then "ON" else "OFF");
    }
    if n in e.meterWatts {
      ToldIsRetained(states, settings, steps, i, d, Power(n), fmt.watts(e.meterWatts[n]));
    }
    if 0 !in e.meterWatts && SomeOutletReported(e.meterWatts) {
      ToldIsRetained(states, settings, steps, i, d, Power(0), fmt.watts(ReportedSum(e.meterWatts, 4)));
    }
    if e.vtpeSeen && 1 <= n && n in e.temperature {
      ToldIsRetained(states, settings, steps, i, d, Temp(n), fmt.tenths(e.temperature[n]));
    }
    if e.vtpeSeen && n in e.energy {
      ToldIsRetained(states, settings, steps, i, d, Energy(n), fmt.kwh(e.energy[n]));
    }
  }

  lemma WhatIsTold(fmt: Format, e: Entry, n: nat)
    requires n <= 4
    ensures n in e.power ==> Tells(fmt, e, Outlet(n), if e.power[n] then "ON" else "OFF")
    ensures n in e.meterWatts ==> Tells(fmt, e, Power(n), fmt.watts(e.meterWatts[n]))
    ensures 0 !in e.meterWatts && SomeOutletReported(e.meterWatts) ==>
              Tells(fmt, e, Power(0), fmt.watts(ReportedSum(e.meterWatts, 4)))
    ensures e.vtpeSeen && 1 <= n && n in e.temperature ==> Tells(fmt, e, Temp(n), fmt.tenths(e.temperature[n]))
    ensures e.vtpeSeen && n in e.energy ==> Tells(fmt, e, Energy(n), fmt.kwh(e.energy[n]))
  {
  }

  predicate RetainedAs(s: Sys, topic: Topic, text: string) {
    topic in s.hub.link.retained && s.hub.link.retained[topic] == Text(text)
  }

  lemma ToldIsRetained(states: seq<Sys>, settings: Settings, steps: seq<Step>, i: nat, d: Dev, field: Field, text: string)
    requires IsRun(states, settings, steps) && Fresh(states[0])
    requires i < |steps| && steps[i].Loop? && Ticks(states[i], settings, steps[i].input)
    requires d in SceneOf(states[i], settings, steps[i].input).devs && IsUp(states[i + 1].slots, d.slug)
    requires states[i + 1].hub.link.up && !states[i + 1].hub.link.needRepublish
    requires Tells(settings.cfg.fmt, d.entry, field, text) && field != Voltage
    ensures RetainedAs(states[i + 1], State(d.slug, field), text)
  {
    hide Fresh, SceneOf, Ticks, IsUp;
    PublishedIsTold(settings.cfg.fmt, d.entry, field, text);
    hide Tells, Shown, StateFields;
    TickMirrorsEntries(states, settings, steps, i, d, field);
  }

  // ---- showing everything, and showing changes only -------------------------------------------------

  lemma {:induction false} ForcedFieldsAreSent(h: Hub, cfg: Cfg, slug: Slug, e: Entry, fields: seq<Field>)
    requires (forall n :: cfg.weather(n) == Calm) && h.link.up
    ensures var link := PutFields(h, cfg, slug, e, fields, true).link;
            && link.up && h.link.sent <= link.sent
            && forall field :: field in fields && Shown(cfg.fmt, e, field).Some? ==>
                 Msg(State(slug, field), Text(Shown(cfg.fmt, e, field).value)) in link.sent[|h.link.sent|..]
  {
    hide Shown;
    if fields != [] {
      var init, field := fields[..|fields| - 1], fields[|fields| - 1];
      ForcedFieldsAreSent(h, cfg, slug, e, init);
      assert fields == init + [field];
      var mid, link := PutFields(h, cfg, slug, e, init, true).link, PutFields(h, cfg, slug, e, fields, true).link;
      if Shown(cfg.fmt, e, field).Some? {
        assert link.sent == mid.sent + [Msg(State(slug, field), Text(Shown(cfg.fmt, e, field).value))];
        assert link.sent[|h.link.sent|..]
            == mid.sent[|h.link.sent|..] + [Msg(State(slug, field), Text(Shown(cfg.fmt, e, field).value))];
      }
    }
  }

  /** A device that comes online, is republished while up, or is declared anew while up, is shown in full: everything
      its telemetry tells is sent, also what is unchanged. */
  lemma EverythingIsSent(h: Hub, cfg: Cfg, d: Dev, slots: map<Slug, A.Slot>, job: Job, field: Field, text: string)
    requires (forall n :: cfg.weather(n) == Calm) && h.link.up && Tells(cfg.fmt, d.entry, field, text)
    requires || job == EventJob(d, A.Online) || job == EventJob(d, A.OnlineRepublish)
             || (job == RepublishJob(d, slots) && A.PhaseOf(slots, d.slug) == A.Up)
             || (job == VtpeJob(d, slots) && A.PhaseOf(slots, d.slug) == A.Up && d.entry.vtpeSeen
                 && !VtpePublished(h, d.slug))
    ensures h.link.sent <= Do(h, cfg, job).link.sent
    ensures Msg(State(d.slug, field), Text(text)) in Do(h, cfg, job).link.sent[|h.link.sent|..]
  {
    hide Tells, Shown, StateFields, DeclaredFields, PutFields, SendAll, Declares, Declarations;
    PublishedIsTold(cfg.fmt, d.entry, field, text);
    var h1 := Declared(h, cfg, job);
    CalmDeclared(h, cfg, job);
    var h2 := Announced(h1, cfg, job);
    CalmAnnounced(h1, cfg, job);
    ForcedFieldsAreSent(Touch(h2, d.slug), cfg, d.slug, d.entry, StateFields(d.entry));
    DoesDisplay(h, cfg, d, slots, job);
    var sent, msg := Do(h, cfg, job).link.sent, Msg(State(d.slug, field), Text(text));
    assert sent[|h2.link.sent|..] == sent[|h.link.sent|..][|h2.link.sent| - |h.link.sent|..];
  }

  lemma DoesDisplay(h: Hub, cfg: Cfg, d: Dev, slots: map<Slug, A.Slot>, job: Job)
    requires || job == EventJob(d, A.Online) || job == EventJob(d, A.OnlineRepublish)
             || (job == RepublishJob(d, slots) && A.PhaseOf(slots, d.slug) == A.Up)
             || (job == VtpeJob(d, slots) && A.PhaseOf(slots, d.slug) == A.Up && d.entry.vtpeSeen
                 && !VtpePublished(h, d.slug) && h.link.up)
    ensures Do(h, cfg, job)
         == PutFields(Touch(Announced(Declared(h, cfg, job), cfg, job), d.slug), cfg, d.slug, d.entry,
                      StateFields(d.entry), true)
  {
    hide Announced, Declared, PutFields, StateFields, Touch;
  }

  lemma CalmDeclared(h: Hub, cfg: Cfg, job: Job)
    requires (forall n :: cfg.weather(n) == Calm) && h.link.up
    ensures Declared(h, cfg, job).link.up && h.link.sent <= Declared(h, cfg, job).link.sent
  {
    hide SendAll, Declares, Declarations;
    var d := job.dev;
    CalmSendAll(h.link, cfg.weather, Declarations(d.slug, d.mac, d.entry.vtpeSeen, DeclaredFields(d.entry.vtpeSeen)));
  }

  lemma CalmAnnounced(h: Hub, cfg: Cfg, job: Job)
    requires (forall n :: cfg.weather(n) == Calm) && h.link.up
    ensures Announced(h, cfg, job).link.up && h.link.sent <= Announced(h, cfg, job).link.sent
  {
  }

  lemma {:induction false} CalmSendAll(l: Link, weather: nat -> Weather, items: seq<Item>)
    requires (forall n :: weather(n) == Calm) && l.up
    ensures SendAll(l, weather, items).up && l.sent <= SendAll(l, weather, items).sent
  {
    if items != [] {
      CalmSendAll(l, weather, items[..|items| - 1]);
    }
  }

  lemma {:induction false} ChangedFieldsAreSent(h: Hub, cfg: Cfg, slug: Slug, e: Entry, fields: seq<Field>)
    requires (forall n :: cfg.weather(n) == Calm) && h.link.up
    ensures var next := PutFields(h, cfg, slug, e, fields, false);
            && next.link.up && h.link.sent <= next.link.sent
            && (forall field :: field !in fields ==>
                  (field in RecordOf(next, slug) <==> field in RecordOf(h, slug))
                  && (field in RecordOf(h, slug) ==> RecordOf(next, slug)[field] == RecordOf(h, slug)[field]))
            && forall field, text ::
                 field in fields && Shown(cfg.fmt, e, field) == Some(text) && IsNews(h, slug, field, text) ==>
                 Msg(State(slug, field), Text(text)) in next.link.sent[|h.link.sent|..]
  {
    hide Shown;
    if fields != [] {
      var init, field := fields[..|fields| - 1], fields[|fields| - 1];
      ChangedFieldsAreSent(h, cfg, slug, e, init);
      assert fields == init + [field];
      var mid, next := PutFields(h, cfg, slug, e, init, false), PutFields(h, cfg, slug, e, fields, false);
      if next.link.sent != mid.link.sent {
        var msg := Msg(State(slug, field), Text(Shown(cfg.fmt, e, field).value));
        assert next.link.sent == mid.link.sent + [msg];
        assert next.link.sent[|h.link.sent|..] == mid.link.sent[|h.link.sent|..] + [msg];
      }
    }
  }

  /** The text is not what was last published of the field. */
  predicate IsNews(h: Hub, slug: Slug, field: Field, text: string) {
    field !in RecordOf(h, slug) || RecordOf(h, slug)[field] != text
  }

  /** A state tick sends whatever has changed about a device that is up, its voltage included. */
  lemma ChangeIsSent(h: Hub, cfg: Cfg, d: Dev, slots: map<Slug, A.Slot>, field: Field, text: string)
    requires (forall n :: cfg.weather(n) == Calm) && h.link.up && A.PhaseOf(slots, d.slug) == A.Up
    requires Tells(cfg.fmt, d.entry, field, text) && IsNews(h, d.slug, field, text)
    ensures h.link.sent <= Do(h, cfg, TickJob(d, slots)).link.sent
    ensures Msg(State(d.slug, field), Text(text)) in Do(h, cfg, TickJob(d, slots)).link.sent[|h.link.sent|..]
  {
    hide Tells, Shown, StateFields, PutFields;
    PublishedIsTold(cfg.fmt, d.entry, field, text);
    ChangedFieldsAreSent(Touch(h, d.slug), cfg, d.slug, d.entry, StateFields(d.entry));
  }

  lemma {:induction false} UnchangedFieldsAreNotSent(h: Hub, cfg: Cfg, d: Dev, fields: seq<Field>)
    requires !cfg.eager && (forall n :: cfg.weather(n) == Calm) && Holds(h, cfg.fmt, d, fields)
    ensures var next := PutFields(h, cfg, d.slug, d.entry, fields, false);
            next.link == h.link.(clock := next.link.clock) && next.lastPub == h.lastPub
  {
    hide Shown;
    if fields != [] {
      var init, field := fields[..|fields| - 1], fields[|fields| - 1];
      assert forall f :: f in init ==> f in fields;
      UnchangedFieldsAreNotSent(h, cfg, d, init);
      assert field in fields;
    }
  }

  lemma {:induction false} PutFieldsKeepsVtpe(h: Hub, cfg: Cfg, slug: Slug, e: Entry, fields: seq<Field>, force: bool)
    ensures PutFields(h, cfg, slug, e, fields, force).vtpePub == h.vtpePub
  {
    hide Shown;
    if fields != [] {
      PutFieldsKeepsVtpe(h, cfg, slug, e, fields[..|fields| - 1], force);
    }
  }

  /** A device is declared anew exactly if it has sent a full report that is not declared yet, and there is a connection;
      otherwise the pass leaves everything as it is. */
  lemma DeclaredAnewOnce(h: Hub, cfg: Cfg, d: Dev, slots: map<Slug, A.Slot>)
    ensures var next := Do(h, cfg, VtpeJob(d, slots));
            if d.entry.vtpeSeen && !VtpePublished(h, d.slug) && h.link.up then VtpePublished(next, d.slug) else next == h
  {
    hide SendAll, Put, Shown, StateFields, Declarations, DeclaredFields;
    var h1 := Declared(h, cfg, VtpeJob(d, slots));
    PutFieldsKeepsVtpe(Touch(h1, d.slug), cfg, d.slug, d.entry, StateFields(d.entry), true);
  }

  /** A state tick sends nothing about a device whose telemetry is all in the cache. */
  lemma UnchangedDeviceIsQuiet(h: Hub, cfg: Cfg, d: Dev, slots: map<Slug, A.Slot>)
    requires !cfg.eager && (forall n :: cfg.weather(n) == Calm)
    requires forall field, text :: Tells(cfg.fmt, d.entry, field, text) ==>
               field in RecordOf(h, d.slug) && RecordOf(h, d.slug)[field] == text
    ensures Do(h, cfg, TickJob(d, slots)).link.sent == h.link.sent
    ensures Do(h, cfg, TickJob(d, slots)).link.retained == h.link.retained
  {
    hide Tells, Shown, StateFields, PutFields;
    forall field | field in StateFields(d.entry) && Shown(cfg.fmt, d.entry, field).Some?
      ensures field in RecordOf(h, d.slug) && RecordOf(h, d.slug)[field] == Shown(cfg.fmt, d.entry, field).value
    {
      PublishedIsTold(cfg.fmt, d.entry, field, Shown(cfg.fmt, d.entry, field).value);
    }
    UnchangedFieldsAreNotSent(Touch(h, d.slug), cfg, d, StateFields(d.entry));
  }
}
