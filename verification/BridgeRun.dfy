/** Whole runs of the bridge: iterations of the main loop, connections and disconnections, a broker that
    may forget while it is away, and restarts of the bridge process (bridge/mttl_ha_bridge.py). */
module BridgeRun {
  import opened Options
  import opened Orders
  import opened Discovery
  import opened MacIdentity
  import opened StickyIdentity
  import opened BridgeModel
  import opened BridgePublishing
  import opened BridgeOrdering
  import opened BridgeAvailability
  import A = Availability

  // ---- from a snapshot of devices.json to the devices of an iteration ----------

  datatype Device = Device(cid: string, claim: Claim, entry: Entry)

  /** Assigning to an ordered dictionary: in place if the key is there, else at the end. */
  function Upsert(devs: seq<Dev>, d: Dev): (r: seq<Dev>)
    ensures |r| >= |devs|
    ensures forall i :: 0 <= i < |devs| ==> r[i] == if devs[i].slug == d.slug then d else devs[i]
    ensures if d.slug in Slugs(devs) then |r| == |devs| else r == devs + [d]
  {
    if d.slug in Slugs(devs) then
      seq(|devs|, i requires 0 <= i < |devs| => if devs[i].slug == d.slug then d else devs[i])
    else
      assert forall i :: 0 <= i < |devs| ==> devs[i] in devs && devs[i].slug in Slugs(devs);
      devs + [d]
  }

  /** The loop over the snapshot: who is who, and what was learned on the way. */
  function ResolveAll(ids: Ids, devices: seq<Device>, writable: string -> bool,
        sha256: string -> Digest): (Ids, seq<Dev>) {
    if devices == [] then (ids, [])
    else
      var (before, devs) := ResolveAll(ids, devices[..|devices| - 1], writable, sha256);
      var d := devices[|devices| - 1];
      var mac := Resolved(before, d.cid, d.claim);
      (Resolving(before, d.cid, d.claim, writable(d.cid)),
       if mac.Some? then Upsert(devs, Dev(DeviceSlug(d.cid, mac, sha256), d.cid, mac.value, d.entry)) else devs)
  }

  const NO_CLAIM := Claim(None, None)

  function ClaimOf(devices: seq<Device>, cid: string): Claim {
    if devices == [] then NO_CLAIM
    else if devices[|devices| - 1].cid == cid then devices[|devices| - 1].claim
    else ClaimOf(devices[..|devices| - 1], cid)
  }

  function DeviceIds(devices: seq<Device>): set<string> {
    set d | d in devices :: d.cid
  }

  /** The slugs of the live sessions; one not in the snapshot has only its remembered MAC. */
  function LiveSlugs(ids: Ids, devices: seq<Device>, live: set<string>, sha256: string -> Digest): set<Slug> {
    set cid | cid in live && Resolved(ids, cid, ClaimOf(devices, cid)).Some? ::
      DeviceSlug(cid, Resolved(ids, cid, ClaimOf(devices, cid)), sha256)
  }

  /** Each client_id occurs once, as a key of the snapshot. */
  ghost predicate DistinctIds(devices: seq<Device>) {
    forall i, j :: 0 <= i < j < |devices| ==> devices[i].cid != devices[j].cid
  }

  lemma UpsertSlugs(devs: seq<Dev>, d: Dev)
    ensures DistinctSlugs(devs) ==> DistinctSlugs(Upsert(devs, d))
    ensures Slugs(Upsert(devs, d)) == Slugs(devs) + {d.slug}
    ensures forall x :: x in Upsert(devs, d) ==> x == d || (x in devs && x.slug != d.slug)
  {
    var r := Upsert(devs, d);
    forall x | x in devs ensures x.slug in Slugs(r) {
      var i :| 0 <= i < |devs| && devs[i] == x;
      assert r[i] in r && r[i].slug == x.slug;
    }
    if d.slug in Slugs(devs) {
      var x :| x in devs && x.slug == d.slug;
      var i :| 0 <= i < |devs| && devs[i] == x;
      assert r[i] == d;
    } else {
      assert r[|devs|] == d;
      assert forall x :: x in devs ==> x.slug in Slugs(devs);
    }
  }

  /** What the pass over the snapshot establishes. */
  ghost predicate Identified(ids: Ids, devices: seq<Device>, after: Ids, devs: seq<Dev>) {
    && Consistent(after)
    && Extends(ids.memory, after.memory)
    && DistinctSlugs(devs)
    && (forall d :: d in devs ==> Canonical(d.slug) && d.mac == d.slug)
    && (forall d :: d in devices && d.cid != "" && Resolved(after, d.cid, d.claim).Some? ==> d.cid in after.memory)
    && ("" in after.memory <==> "" in ids.memory)
    && (forall d :: d in devices && Resolved(after, d.cid, d.claim).Some? ==>
          Resolved(after, d.cid, d.claim).value in Slugs(devs))
    && (forall d :: d in devs ==>
          exists x :: x in devices && x.cid == d.cid && x.entry == d.entry && Resolved(after, x.cid, x.claim) == Some(d.slug))
  }

  lemma ResolvingOne(ids: Ids, cid: string, claim: Claim, writable: bool, sha256: string -> Digest)
    requires Consistent(ids)
    ensures var after, mac := Resolving(ids, cid, claim, writable), Resolved(ids, cid, claim);
            && Consistent(after) && Extends(ids.memory, after.memory)
            && (forall other :: other in after.memory && other != cid ==> other in ids.memory)
            && (mac.Some? ==> Canonical(mac.value) && DeviceSlug(cid, mac, sha256) == mac.value)
            && (mac.Some? && cid != "" ==> cid in after.memory && after.memory[cid] == mac.value)
            && (mac == None ==> cid !in after.memory)
            && (cid == "" ==> (cid in after.memory <==> cid in ids.memory))
            && Resolved(after, cid, claim) == mac
  {
    StepKeeps(ids, Resolve(cid, claim, writable));
    FirstCleanMacCanonical(claim);
    if Resolved(ids, cid, claim).Some? {
      ResolvedSlugIsMac(ids, cid, claim, sha256);
    }
  }

  /** The snapshot pass: distinct devices under their canonical MACs, each with the telemetry of the entry it comes from,
      and a memory that has grown by what was learned. */
  lemma {:induction false} ResolveAllIdentifies(ids: Ids, devices: seq<Device>, writable: string -> bool,
        sha256: string -> Digest)
    requires Consistent(ids)
    ensures var (after, devs) := ResolveAll(ids, devices, writable, sha256); Identified(ids, devices, after, devs)
  {
    hide CleanMac, FirstCleanMac, Load, DeviceSlug, Resolving, Upsert, Canonical;
    if devices != [] {
      var init, d := devices[..|devices| - 1], devices[|devices| - 1];
      assert devices == init + [d];
      ResolveAllIdentifies(ids, init, writable, sha256);
      var (before, devs) := ResolveAll(ids, init, writable, sha256);
      var (after, devs') := ResolveAll(ids, devices, writable, sha256);
      ResolvingOne(before, d.cid, d.claim, writable(d.cid), sha256);
      if Resolved(before, d.cid, d.claim).Some? {
        var mac := Resolved(before, d.cid, d.claim).value;
        UpsertSlugs(devs, Dev(DeviceSlug(d.cid, Some(mac), sha256), d.cid, mac, d.entry));
      }
      IdentifiedGrows(ids, init, before, devs, d, after, devs');
    }
  }

  lemma IdentifiedGrows(ids: Ids, init: seq<Device>, before: Ids, devs: seq<Dev>, d: Device, after: Ids,
        devs': seq<Dev>)
    requires Identified(ids, init, before, devs)
    requires Consistent(after) && Extends(before.memory, after.memory) && DistinctSlugs(devs')
    requires forall other :: other in after.memory && other != d.cid ==> other in before.memory
    requires d.cid == "" ==> (d.cid in after.memory <==> d.cid in before.memory)
    requires var mac := Resolved(before, d.cid, d.claim);
             && Resolved(after, d.cid, d.claim) == mac
             && if mac == None then devs' == devs && d.cid !in after.memory
                else && Canonical(mac.value) && Slugs(devs') == Slugs(devs) + {mac.value}
                     && (d.cid != "" ==> d.cid in after.memory)
                     && forall x :: x in devs' ==> x in devs || x == Dev(mac.value, d.cid, mac.value, d.entry)
    ensures Identified(ids, init + [d], after, devs')
  {
    hide CleanMac, FirstCleanMac, Load, DeviceSlug, Canonical;
    var devices := init + [d];
    forall x | x in devices && Resolved(after, x.cid, x.claim).Some?
      ensures x.cid != "" ==> x.cid in after.memory
      ensures Resolved(after, x.cid, x.claim).value in Slugs(devs')
    {
      if x in init {
        assert x.cid in before.memory ==> after.memory[x.cid] == before.memory[x.cid];
        assert x.cid !in after.memory ==> Resolved(before, x.cid, x.claim) == Resolved(after, x.cid, x.claim);
      }
    }
    forall y | y in devs'
      ensures exists x :: x in devices && x.cid == y.cid && x.entry == y.entry
                          && Resolved(after, x.cid, x.claim) == Some(y.slug)
    {
      if y in devs {
        var x :| x in init && x.cid == y.cid && x.entry == y.entry && Resolved(before, x.cid, x.claim) == Some(y.slug);
        assert x in devices && Resolved(after, x.cid, x.claim) == Some(y.slug);
      } else {
        assert d in devices;
      }
    }
  }

  // ---- the state of a run ---------------------------------------------------------

  datatype Settings = Settings(cfg: Cfg, grace: real, stateInterval: real, sha256: string -> Digest)

  /** The bridge process, the broker and the slug file. The last two fields are history only: the slugs
      whose latest republish fell into their grace period, and the client_ids of the last snapshot. */
  datatype Sys = Sys(hub: Hub, slots: map<Slug, A.Slot>, ids: Ids, lastState: real, masked: set<Slug>, cids: set<string>)

  /** What one iteration reads: the snapshot, the live sessions, the clock, which saves succeed, and the
      order in which the set of known slugs happens to be iterated. */
  datatype Input = Input(devices: seq<Device>, live: set<string>, now: real, writable: string -> bool, order: seq<Slug>)

  datatype Step =
    | Loop(input: Input)
    | Connect
    | Disconnect
    | BrokerChanges(retained: map<Topic, Payload>)
    | RestartBridge

  /** What an iteration makes of its input before it publishes. */
  datatype Scene = Scene(ids: Ids, devs: seq<Dev>, live: set<Slug>)

  function SceneOf(s: Sys, settings: Settings, input: Input): Scene {
    var (ids, devs) := ResolveAll(s.ids, input.devices, input.writable, settings.sha256);
    Scene(ids, devs, LiveSlugs(ids, input.devices, input.live, settings.sha256))
  }

  ghost predicate ValidInput(s: Sys, settings: Settings, input: Input) {
    DistinctIds(input.devices) && Enumerates(input.order, Slugs(SceneOf(s, settings, input).devs))
  }

  function SlotsAfter(s: Sys, settings: Settings, input: Input): map<Slug, A.Slot> {
    var scene := SceneOf(s, settings, input);
    A.Observed(s.slots, scene.live, Slugs(scene.devs), input.now, settings.grace)
  }

  function EventsIn(s: Sys, settings: Settings, input: Input): seq<(Slug, A.Event)> {
    A.Events(s.slots, SceneOf(s, settings, input).live, input.order, input.now, settings.grace)
  }

  predicate Ticks(s: Sys, settings: Settings, input: Input) {
    input.now - s.lastState >= settings.stateInterval
  }

  lemma {:induction false} EventsAreKnown(slots: map<Slug, A.Slot>, live: set<Slug>, order: seq<Slug>,
        now: real, grace: real, devs: seq<Dev>)
    requires forall slug :: slug in order ==> slug in Slugs(devs)
    ensures EventsKnown(A.Events(slots, live, order, now, grace), devs)
  {
    if order != [] {
      EventsAreKnown(slots, live, order[..|order| - 1], now, grace, devs);
      assert order[|order| - 1] in order;
    }
  }

  lemma InputEvents(s: Sys, settings: Settings, input: Input)
    requires ValidInput(s, settings, input)
    ensures var scene := SceneOf(s, settings, input);
            EventsOf(EventsIn(s, settings, input), scene.devs, scene.live, s.slots, SlotsAfter(s, settings, input),
                     input.now, settings.grace)
  {
    var scene := SceneOf(s, settings, input);
    EventsAreKnown(s.slots, scene.live, input.order, input.now, settings.grace, scene.devs);
  }

  ghost function LoopOnce(s: Sys, settings: Settings, input: Input): Sys
    requires ValidInput(s, settings, input)
  {
    InputEvents(s, settings, input);
    var scene := SceneOf(s, settings, input);
    var events := EventsIn(s, settings, input);
    Sys(Iterate(s.hub, settings.cfg, scene.devs, s.slots, events, SlotsAfter(s, settings, input), Ticks(s, settings, input)),
        SlotsAfter(s, settings, input),
        scene.ids,
        if Ticks(s, settings, input) then input.now else s.lastState,
        NextMasked(s.masked, Republishes(s.hub), scene.devs, s.slots, events),
        DeviceIds(input.devices))
  }

  ghost predicate ValidStep(s: Sys, settings: Settings, step: Step) {
    match step
    case Loop(input) => ValidInput(s, settings, input)
    case BrokerChanges(_) => !s.hub.link.up
    case _ => true
  }

  /** A new process on the same machine: only the broker and the slug file are still there. */
  function Restarted(s: Sys): Sys {
    Sys(Hub(map[], map[], Dropped(s.hub.link).(needRepublish := false)),
        map[], StickyIdentity.DoStep(s.ids, Restart), 0.0, {}, {})
  }

  ghost function Next(s: Sys, settings: Settings, step: Step): Sys
    requires ValidStep(s, settings, step)
  {
    match step
    case Loop(input) => LoopOnce(s, settings, input)
    case Connect => s.(hub := s.hub.(link := Connected(s.hub.link)))
    case Disconnect => s.(hub := s.hub.(link := Dropped(s.hub.link)))
    case BrokerChanges(retained) => s.(hub := s.hub.(link := s.hub.link.(retained := retained)))
    case RestartBridge => Restarted(s)
  }

  /** A run, as the states it goes through. */
  ghost predicate IsRun(states: seq<Sys>, settings: Settings, steps: seq<Step>) {
    && |states| == |steps| + 1
    && (forall i :: 0 <= i < |steps| ==> ValidStep(states[i], settings, steps[i])
                                         && states[i + 1] == Next(states[i], settings, steps[i]))
  }

  /** A process that has just started, beside any broker and any slug file. */
  ghost predicate Fresh(s: Sys) {
    && s.hub.lastPub == map[] && s.hub.vtpePub == map[]
    && !s.hub.link.up && !s.hub.link.needRepublish && s.hub.link.sent == []
    && s.slots == map[] && s.masked == {} && s.cids == {} && s.lastState == 0.0
    && s.ids.memory == Load(s.ids.file)
  }

  // ---- theorem: the cache agrees with the broker ----------------------------------

  lemma NextAgrees(s: Sys, settings: Settings, step: Step)
    requires ValidStep(s, settings, step) && Agree(s.hub)
    ensures Agree(Next(s, settings, step).hub)
  {
    hide Iterate;
    if step.Loop? {
      var input := step.input;
      InputEvents(s, settings, input);
      IterateAgrees(s.hub, settings.cfg, SceneOf(s, settings, input).devs, s.slots, EventsIn(s, settings, input),
                    SlotsAfter(s, settings, input), Ticks(s, settings, input));
    }
  }

  /** In every run, with the connection dropping and returning anywhere, even within an iteration: while
      connected with no republish pending, every cached value is the one the broker retains. */
  lemma {:induction false} CacheAgreesWithBroker(states: seq<Sys>, settings: Settings, steps: seq<Step>, i: nat)
    requires IsRun(states, settings, steps) && Fresh(states[0]) && i < |states|
    ensures Agree(states[i].hub)
  {
    if i > 0 {
      CacheAgreesWithBroker(states, settings, steps, i - 1);
      NextAgrees(states[i - 1], settings, steps[i - 1]);
    }
  }

  // ---- theorem: suppression refines unconditional publishing ----------------------

  ghost predicate Twins(s: Sys, ref: Sys) {
    Alike(s.hub, ref.hub) && s.(hub := ref.hub) == ref
  }

  lemma NextTwins(s: Sys, ref: Sys, settings: Settings, step: Step)
    requires ValidStep(s, settings, step) && Twins(s, ref) && Agree(s.hub) && NoReturns(settings.cfg.weather)
    ensures ValidStep(ref, settings.(cfg := Eager(settings.cfg)), step)
    ensures Twins(Next(s, settings, step), Next(ref, settings.(cfg := Eager(settings.cfg)), step))
  {
    hide Iterate;
    if step.Loop? {
      var input := step.input;
      var eager := settings.(cfg := Eager(settings.cfg));
      assert SceneOf(s, settings, input) == SceneOf(ref, eager, input);
      InputEvents(s, settings, input);
      IterateAlike(s.hub, ref.hub, settings.cfg, SceneOf(s, settings, input).devs, s.slots, EventsIn(s, settings, input),
                   SlotsAfter(s, settings, input), Ticks(s, settings, input));
    }
  }

  /** Change-suppressed publishing refines always-publishing: run the two side by side, through any
      iterations, drops (also within an iteration), reconnects, broker losses and restarts, and the
      broker retains the same messages at every moment. */
  lemma {:induction false} SuppressionRefinesAlwaysPublishing(
      states: seq<Sys>, refs: seq<Sys>, settings: Settings, steps: seq<Step>, i: nat)
    requires NoReturns(settings.cfg.weather) && !settings.cfg.eager
    requires IsRun(states, settings, steps) && Fresh(states[0]) && i < |states|
    requires IsRun(refs, settings.(cfg := Eager(settings.cfg)), steps) && refs[0] == states[0]
    ensures Twins(states[i], refs[i])
    ensures states[i].hub.link.retained == refs[i].hub.link.retained
  {
    if i > 0 {
      SuppressionRefinesAlwaysPublishing(states, refs, settings, steps, i - 1);
      CacheAgreesWithBroker(states, settings, steps, i - 1);
      NextTwins(states[i - 1], refs[i - 1], settings, steps[i - 1]);
    }
  }

  /** After an iteration with a state tick that ends connected and settled, the retained topics of
      every device that is up show its whole entry. */
  lemma TickMirrorsEntries(states: seq<Sys>, settings: Settings, steps: seq<Step>, i: nat, d: Dev, field: Field)
    requires IsRun(states, settings, steps) && Fresh(states[0])
    requires i < |steps| && steps[i].Loop? && Ticks(states[i], settings, steps[i].input)
    requires d in SceneOf(states[i], settings, steps[i].input).devs && IsUp(states[i + 1].slots, d.slug)
    requires field in StateFields(d.entry) && IsRetained(field) && Shown(settings.cfg.fmt, d.entry, field).Some?
    ensures var link := states[i + 1].hub.link;
            link.up && !link.needRepublish ==>
              State(d.slug, field) in link.retained
              && link.retained[State(d.slug, field)] == Text(Shown(settings.cfg.fmt, d.entry, field).value)
  {
    hide Iterate;
    var s, input := states[i], steps[i].input;
    CacheAgreesWithBroker(states, settings, steps, i);
    IdsConsistent(states, settings, steps, i);
    ResolveAllIdentifies(s.ids, input.devices, input.writable, settings.sha256);
    InputEvents(s, settings, input);
    TickShowsEverything(s.hub, settings.cfg, SceneOf(s, settings, input).devs, s.slots, EventsIn(s, settings, input),
                        SlotsAfter(s, settings, input), d, field);
  }

  // ---- identities over runs --------------------------------------------------------

  lemma {:induction false} IdsConsistent(states: seq<Sys>, settings: Settings, steps: seq<Step>, i: nat)
    requires IsRun(states, settings, steps) && Fresh(states[0]) && i < |states|
    ensures Consistent(states[i].ids)
  {
    hide Iterate;
    if i == 0 {
      FreshProcessConsistent(states[0].ids.file);
    } else {
      IdsConsistent(states, settings, steps, i - 1);
      var s, step := states[i - 1], steps[i - 1];
      if step.Loop? {
        ResolveAllIdentifies(s.ids, step.input.devices, step.input.writable, settings.sha256);
      } else if step.RestartBridge? {
        StepKeeps(s.ids, Restart);
      }
    }
  }

  // ---- theorem: who is live, and when states are shown --------------------------------------------

  lemma {:induction false} ClaimIsThere(devices: seq<Device>, cid: string)
    ensures cid in DeviceIds(devices) ==> exists d :: d in devices && d.cid == cid && d.claim == ClaimOf(devices, cid)
    ensures cid !in DeviceIds(devices) ==> ClaimOf(devices, cid) == NO_CLAIM
  {
    if devices != [] {
      var init, last := devices[..|devices| - 1], devices[|devices| - 1];
      assert devices == init + [last];
      ClaimIsThere(init, cid);
      assert last in devices && last.cid in DeviceIds(devices);
    }
  }

  /** After the pass over the snapshot, a slug is live exactly if the memory binds a live session's client_id to it, or
      the empty client_id is live, unbound, and the snapshot has it with that MAC. */
  lemma LiveIffRemembered(s: Sys, settings: Settings, input: Input, slug: Slug)
    requires ValidInput(s, settings, input) && Consistent(s.ids)
    ensures var scene := SceneOf(s, settings, input);
            slug in scene.live
            <==> || (exists cid :: cid in input.live && cid in scene.ids.memory && scene.ids.memory[cid] == slug)
                 || ("" in input.live && "" !in scene.ids.memory
                     && exists d :: d in input.devices && d.cid == "" && FirstCleanMac(d.claim) == Some(slug))
  {
    hide CleanMac, FirstCleanMac, Load, DeviceSlug, Canonical, ResolveAll;
    ResolveAllIdentifies(s.ids, input.devices, input.writable, settings.sha256);
    var scene := SceneOf(s, settings, input);
    var ids := scene.ids;
    assert Identified(s.ids, input.devices, ids, scene.devs);
    forall cid | cid in input.live && Resolved(ids, cid, ClaimOf(input.devices, cid)).Some?
      ensures DeviceSlug(cid, Resolved(ids, cid, ClaimOf(input.devices, cid)), settings.sha256)
           == Resolved(ids, cid, ClaimOf(input.devices, cid)).value
      ensures cid != "" ==> cid in ids.memory
    {
      LiveIsBound(s, settings, input, cid);
    }
    ClaimIsThere(input.devices, "");
    NoClaimNoMac();
    forall d | d in input.devices && d.cid == "" ensures d.claim == ClaimOf(input.devices, "") {
      OneClaim(input.devices, d);
    }
  }

  lemma NoClaimNoMac()
    ensures FirstCleanMac(NO_CLAIM) == None
  {
  }

  lemma {:induction false} OneClaim(devices: seq<Device>, d: Device)
    requires DistinctIds(devices) && d in devices
    ensures ClaimOf(devices, d.cid) == d.claim
  {
    var init, last := devices[..|devices| - 1], devices[|devices| - 1];
    assert devices == init + [last];
    if d in init {
      OneClaim(init, d);
      var i :| 0 <= i < |init| && init[i] == d;
      assert devices[i].cid != devices[|devices| - 1].cid;
    }
  }

  lemma LiveIsBound(s: Sys, settings: Settings, input: Input, cid: string)
    requires ValidInput(s, settings, input) && Consistent(s.ids)
    requires var scene := SceneOf(s, settings, input); Identified(s.ids, input.devices, scene.ids, scene.devs)
    requires Resolved(SceneOf(s, settings, input).ids, cid, ClaimOf(input.devices, cid)).Some?
    ensures var ids := SceneOf(s, settings, input).ids;
            var mac := Resolved(ids, cid, ClaimOf(input.devices, cid));
            && DeviceSlug(cid, mac, settings.sha256) == mac.value
            && (cid != "" ==> cid in ids.memory)
  {
    hide CleanMac, FirstCleanMac, Load, DeviceSlug, Canonical, ResolveAll;
    var ids := SceneOf(s, settings, input).ids;
    ResolvedSlugIsMac(ids, cid, ClaimOf(input.devices, cid), settings.sha256);
    ClaimIsThere(input.devices, cid);
    NoClaimNoMac();
  }

  /** The iteration publishes states. */
  predicate IsTick(s: Sys, settings: Settings, step: Step) {
    step.Loop? && Ticks(s, settings, step.input)
  }

  lemma {:induction false} LastStateKept(states: seq<Sys>, settings: Settings, steps: seq<Step>, j: nat, i: nat)
    requires IsRun(states, settings, steps) && j <= i < |states|
    requires forall k :: j <= k < i ==> !IsTick(states[k], settings, steps[k]) && !steps[k].RestartBridge?
    ensures states[i].lastState == states[j].lastState
    decreases i
  {
    hide Ticks, Iterate;
    if j < i {
      LastStateKept(states, settings, steps, j, i - 1);
    }
  }

  /** In every run, an iteration publishes states exactly if the interval has passed since the clock reading of the last
      one in this process that did -- or since zero, if none has. */
  lemma TickIsDue(states: seq<Sys>, settings: Settings, steps: seq<Step>, j: nat, i: nat)
    requires IsRun(states, settings, steps) && Fresh(states[0]) && j <= i < |steps| && steps[i].Loop?
    requires j == 0 || IsTick(states[j - 1], settings, steps[j - 1]) || steps[j - 1].RestartBridge?
    requires forall k :: j <= k < i ==> !IsTick(states[k], settings, steps[k]) && !steps[k].RestartBridge?
    ensures var last := if j > 0 && steps[j - 1].Loop? then steps[j - 1].input.now else 0.0;
            IsTick(states[i], settings, steps[i]) <==> steps[i].input.now - last >= settings.stateInterval
  {
    hide Iterate;
    LastStateKept(states, settings, steps, j, i);
  }
}
