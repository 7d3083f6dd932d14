/** Exactly when discovery before state holds, and runs of a freshly started bridge in which it, and the
    announced availability, go wrong. */
module BridgeExact {
  import opened Options
  import opened Discovery
  import opened MacIdentity
  import opened StickyIdentity
  import opened BridgeModel
  import opened BridgePublishing
  import opened BridgeOrdering
  import opened BridgeReturns
  import opened BridgeAvailability
  import opened BridgeTraffic
  import opened BridgeRun
  import opened BridgeSafety
  import A = Availability

  // ---- what may follow a state --------------------------------------------------------

  function Under(settings: Settings, weather: nat -> Weather): Settings {
    settings.(cfg := settings.cfg.(weather := weather))
  }

  /** Any run from the state, under any weather that only drops, until a new connection is made. */
  ghost predicate Continues(s: Sys, settings: Settings, weather: nat -> Weather, states: seq<Sys>, steps: seq<Step>) {
    && NoReturns(weather) && IsRun(states, Under(settings, weather), steps) && states[0] == s
    && forall i :: 0 <= i < |steps| ==> !steps[i].Connect?
  }

  ghost predicate StaysOrdered(s: Sys, settings: Settings) {
    forall weather: nat -> Weather, states: seq<Sys>, steps: seq<Step> ::
      Continues(s, settings, weather, states, steps) ==> Ordered(states[|steps|].hub.link.sent)
  }

  // ---- if the present devices are cached, the order is kept ----------------------------

  lemma NextConsistent(s: Sys, settings: Settings, step: Step)
    requires ValidStep(s, settings, step) && Consistent(s.ids)
    ensures Consistent(Next(s, settings, step).ids)
  {
    hide Iterate;
    if step.Loop? {
      ResolveAllIdentifies(s.ids, step.input.devices, step.input.writable, settings.sha256);
    } else if step.RestartBridge? {
      StepKeeps(s.ids, Restart);
    }
  }

  lemma {:induction false} ContinuationOrderly(s: Sys, settings: Settings, weather: nat -> Weather,
        states: seq<Sys>, steps: seq<Step>, i: nat)
    requires Continues(s, settings, weather, states, steps) && i < |states|
    requires Consistent(s.ids) && Orderly(s) && Settled(s.hub)
    ensures Consistent(states[i].ids) && Orderly(states[i]) && Settled(states[i].hub)
  {
    hide Orderly, Consistent, Next;
    if i > 0 {
      ContinuationOrderly(s, settings, weather, states, steps, i - 1);
      NextConsistent(states[i - 1], Under(settings, weather), steps[i - 1]);
      NextOrderly(states[i - 1], Under(settings, weather), steps[i - 1]);
    }
  }

  lemma CachedPresentKeepsOrder(s: Sys, settings: Settings)
    requires Consistent(s.ids) && Orderly(s) && Settled(s.hub)
    ensures StaysOrdered(s, settings)
  {
    hide Consistent, Next;
    forall weather: nat -> Weather, states: seq<Sys>, steps: seq<Step> | Continues(s, settings, weather, states, steps)
      ensures Ordered(states[|steps|].hub.link.sent)
    {
      ContinuationOrderly(s, settings, weather, states, steps, |steps|);
    }
  }

  // ---- a snapshot with one device --------------------------------------------------------

  /** A client_id nothing is bound to. */
  lemma {:induction false} UnusedId(used: set<string>) returns (cid: string)
    ensures cid != "" && cid !in used && forall x :: x in used ==> |x| < |cid|
  {
    if used == {} {
      cid := "x";
    } else {
      var x :| x in used;
      var shorter := UnusedId(used - {x});
      cid := shorter + x;
    }
  }

  /** The device presents its MAC, and has only reported whether it is on. */
  function OneDevice(cid: string, mac: string, on: bool, live: bool, now: real): Input {
    Input([Device(cid, Claim(Some(mac), None), Switched(on))], if live then {cid} else {}, now, _ => true, [mac])
  }

  lemma OneDeviceScene(s: Sys, settings: Settings, cid: string, mac: string, on: bool, live: bool, now: real)
    requires Canonical(mac) && Consistent(s.ids) && cid != ""
    requires cid in s.ids.memory ==> s.ids.memory[cid] == mac
    ensures var input := OneDevice(cid, mac, on, live, now);
            && ValidInput(s, settings, input)
            && SceneOf(s, settings, input).devs == [Dev(mac, cid, mac, Switched(on))]
            && SceneOf(s, settings, input).live == (if live then {mac} else {})
            && cid in SceneOf(s, settings, input).ids.memory && SceneOf(s, settings, input).ids.memory[cid] == mac
            && Slugs(SceneOf(s, settings, input).devs) == {mac}
  {
    hide CleanMac, Load, DeviceSlug, Canonical;
    var input := OneDevice(cid, mac, on, live, now);
    var d := input.devices[0];
    CleanMacFixed(mac);
    assert Resolved(s.ids, cid, d.claim) == Some(mac);
    ResolvingOne(s.ids, cid, d.claim, true, settings.sha256);
    var devices := [d];
    assert devices[..0] == [];
    assert ResolveAll(s.ids, devices[..0], input.writable, settings.sha256) == (s.ids, []);
    var dev := Dev(mac, cid, mac, Switched(on));
    assert Slugs([]) == {} && Upsert([], dev) == [dev];
    assert ResolveAll(s.ids, devices, input.writable, settings.sha256)
        == (Resolving(s.ids, cid, d.claim, true), [dev]);
    assert ClaimOf(devices, cid) == d.claim;
    assert dev in [dev];
    assert Slugs([dev]) == {mac};
  }

  // ---- a present device that the republish missed is shown undeclared ----------------------

  predicate IsOther(slug: Slug, mac: Slug) {
    slug != mac
  }

  ghost function Others(mac: Slug): iset<Slug> {
    iset slug: Slug | IsOther(slug, mac)
  }

  /** The device is back, live, in an iteration with a state tick. */
  function BackAgain(s: Sys, settings: Settings, cid: string, mac: string): Input {
    OneDevice(cid, mac, true, true, s.lastState + if settings.stateInterval > 0.0 then settings.stateInterval else 0.0)
  }

  lemma MissedDeviceIsShown(s: Sys, settings: Settings, cid: string, mac: string)
    requires Canonical(mac) && Consistent(s.ids) && cid != "" && (cid in s.ids.memory ==> s.ids.memory[cid] == mac)
    requires s.hub.link.up && !s.hub.link.needRepublish && settings.cfg.weather(s.hub.link.clock) == Calm
    requires IsPresent(s.slots, mac) && Mentions(s.hub, Others(mac))
    ensures ValidInput(s, settings, BackAgain(s, settings, cid, mac))
    ensures !Ordered(LoopOnce(s, settings, BackAgain(s, settings, cid, mac)).hub.link.sent)
  {
    hide Iterate, ResolveAll, LiveSlugs, Ordered, Canonical, Consistent;
    var input := BackAgain(s, settings, cid, mac);
    OneDeviceScene(s, settings, cid, mac, true, true, input.now);
    InputEvents(s, settings, input);
    var d := Dev(mac, cid, mac, Switched(true));
    var after := SlotsAfter(s, settings, input);
    NoEvent(s.slots, mac, input.now, settings.grace);
    OneSwitchTick(s.hub, settings.cfg, d, s.slots, after);
    assert LoopOnce(s, settings, input).hub == Put(Touch(s.hub, mac), settings.cfg, mac, Outlet(0), "ON", false);
    OneMoreIsUnordered(s.hub, settings.cfg, mac);
  }

  lemma NoEvent(slots: map<Slug, A.Slot>, mac: Slug, now: real, grace: real)
    requires IsPresent(slots, mac)
    ensures A.Events(slots, {mac}, [mac], now, grace) == []
    ensures IsUp(A.Observed(slots, {mac}, {mac}, now, grace), mac)
  {
    assert [mac][..0] == [];
    assert A.Events(slots, {mac}, [mac][..0], now, grace) == [];
  }

  lemma OneMoreIsUnordered(h: Hub, cfg: Cfg, mac: Slug)
    requires h.link.up && cfg.weather(h.link.clock) == Calm && Mentions(h, Others(mac))
    ensures !Ordered(Put(Touch(h, mac), cfg, mac, Outlet(0), "ON", false).link.sent)
  {
    var sent := Put(Touch(h, mac), cfg, mac, Outlet(0), "ON", false).link.sent;
    assert sent == h.link.sent + [Msg(State(mac, Outlet(0)), Text("ON"))];
    assert sent[..|h.link.sent|] == h.link.sent;
    assert !IsNamed(h.link.sent, State(mac, Outlet(0)));
  }

  /** Staying quiet about a device that is there is what breaks the order, in calm weather even. */
  lemma UnmentionedPresentBreaksOrder(s: Sys, settings: Settings, mac: string)
    requires Canonical(mac) && Consistent(s.ids) && s.hub.link.up && !s.hub.link.needRepublish
    requires IsPresent(s.slots, mac) && Mentions(s.hub, Others(mac))
    ensures !StaysOrdered(s, settings)
  {
    hide Mentions, Canonical, Consistent, LoopOnce, Ordered;
    var calm := Under(settings, _ => Calm);
    var cid := UnusedId(s.ids.memory.Keys);
    MissedDeviceIsShown(s, calm, cid, mac);
    var step := Loop(BackAgain(s, calm, cid, mac));
    var states, steps := [s, Next(s, calm, step)], [step];
    assert Continues(s, settings, _ => Calm, states, steps);
  }

  // ---- theorem: exactly when a connection stays ordered ---------------------------------------

  /** Without returns within an iteration, a connection that waits for its republish has sent nothing. */
  lemma {:induction false} WaitingConnectionIsEmpty(states: seq<Sys>, settings: Settings, steps: seq<Step>, i: nat)
    requires NoReturns(settings.cfg.weather) && IsRun(states, settings, steps) && Fresh(states[0]) && i < |states|
    ensures states[i].hub.link.up && states[i].hub.link.needRepublish ==> states[i].hub.link.sent == []
  {
    hide Iterate, ResolveAll, Agree;
    if i > 0 {
      WaitingConnectionIsEmpty(states, settings, steps, i - 1);
      var s, step := states[i - 1], steps[i - 1];
      if step.Loop? {
        CacheAgreesWithBroker(states, settings, steps, i - 1);
        InputEvents(s, settings, step.input);
        IterateAlike(s.hub, s.hub, settings.cfg, SceneOf(s, settings, step.input).devs, s.slots,
                     EventsIn(s, settings, step.input), SlotsAfter(s, settings, step.input),
                     Ticks(s, settings, step.input));
      }
    }
  }

  /** In every run, once a connection has had its republish: whatever follows, until the next connection is
      made, every state and availability message comes after a config naming its topic -- if and only if
      the snapshot of that republish had every device that was then up or in grace. */
  lemma OrderedIffRepublishSeesPresent(states: seq<Sys>, settings: Settings, steps: seq<Step>, i: nat)
    requires NoReturns(settings.cfg.weather) && IsRun(states, settings, steps) && Fresh(states[0])
    requires i < |steps| && steps[i].Loop? && Republishes(states[i].hub) && states[i + 1].hub.link.up
    ensures StaysOrdered(states[i + 1], settings)
       <==> PresentSeen(SceneOf(states[i], settings, steps[i].input).devs, states[i].slots)
  {
    hide Iterate, ResolveAll, StaysOrdered, Mentions, LoopOnce, Orderly, Agree, Canonical, Consistent, Load;
    var s, input, next := states[i], steps[i].input, states[i + 1];
    assert next == LoopOnce(s, settings, input);
    WaitingConnectionIsEmpty(states, settings, steps, i);
    IdsConsistent(states, settings, steps, i);
    IdsConsistent(states, settings, steps, i + 1);
    NothingSentAtRest(s.hub);
    if PresentSeen(SceneOf(s, settings, input).devs, s.slots) {
      LoopOrderly(s, settings, input);
      CachedPresentKeepsOrder(next, settings);
    } else {
      var mac :| IsPresent(s.slots, mac) && mac !in Slugs(SceneOf(s, settings, input).devs);
      NoHashSlugOnTheWire(states, settings, steps, i);
      MissedStaysUnmentioned(states, settings, steps, i, mac);
      UnmentionedPresentBreaksOrder(next, settings, mac);
    }
  }

  lemma NothingSentAtRest(h: Hub)
    requires Republishes(h) && h.link.sent == []
    ensures PromisedAtRest(h)
  {
  }

  lemma MissedStaysUnmentioned(states: seq<Sys>, settings: Settings, steps: seq<Step>, i: nat, mac: Slug)
    requires NoReturns(settings.cfg.weather) && IsRun(states, settings, steps) && Fresh(states[0])
    requires i < |steps| && steps[i].Loop? && Republishes(states[i].hub)
    requires IsPresent(states[i].slots, mac) && mac !in Slugs(SceneOf(states[i], settings, steps[i].input).devs)
    ensures Mentions(states[i + 1].hub, Others(mac)) && IsPresent(states[i + 1].slots, mac)
    ensures states[i + 1].hub.link.up ==> !states[i + 1].hub.link.needRepublish
  {
    hide Iterate, ResolveAll, Mentions, Agree;
    var s, input := states[i], steps[i].input;
    var devs := SceneOf(s, settings, input).devs;
    WaitingConnectionIsEmpty(states, settings, steps, i);
    CacheAgreesWithBroker(states, settings, steps, i);
    InputEvents(s, settings, input);
    assert forall d :: d in devs ==> d.slug in Slugs(devs);
    IterateMentions(s.hub, settings.cfg, devs, s.slots, EventsIn(s, settings, input), SlotsAfter(s, settings, input),
                    Ticks(s, settings, input), Others(mac));
    IterateAlike(s.hub, s.hub, settings.cfg, devs, s.slots, EventsIn(s, settings, input),
                 SlotsAfter(s, settings, input), Ticks(s, settings, input));
  }

  // ---- runs of a fresh bridge that go wrong -----------------------------------------------------

  const EMPTY_SNAPSHOT := Input([], {}, 0.0, _ => true, [])

  lemma EmptyScene(s: Sys, settings: Settings)
    ensures ValidInput(s, settings, EMPTY_SNAPSHOT)
    ensures SceneOf(s, settings, EMPTY_SNAPSHOT) == Scene(s.ids, [], {})
  {
  }

  /** One iteration on a snapshot with one device does to its slot what the machine says. */
  lemma OneDeviceLoop(s: Sys, settings: Settings, cid: string, mac: string, on: bool, live: bool, now: real)
    requires Canonical(mac) && Consistent(s.ids) && cid != "" && (cid in s.ids.memory ==> s.ids.memory[cid] == mac)
    ensures ValidInput(s, settings, OneDevice(cid, mac, on, live, now))
    ensures var next := LoopOnce(s, settings, OneDevice(cid, mac, on, live, now));
            && A.SlotOf(next.slots, mac) == A.Advance(A.SlotOf(s.slots, mac), live, now, settings.grace)
            && Consistent(next.ids) && cid in next.ids.memory && next.ids.memory[cid] == mac
  {
    hide Iterate, ResolveAll, LiveSlugs, Canonical, Consistent;
    OneDeviceScene(s, settings, cid, mac, on, live, now);
    NextConsistent(s, settings, Loop(OneDevice(cid, mac, on, live, now)));
  }

  /** The connection is renewed, and the republish finds no device in the snapshot. */
  function RenewedWithoutDevices(live: Input): seq<Step> {
    [Connect, Loop(live), Disconnect, Connect, Loop(EMPTY_SNAPSHOT)]
  }

  lemma OneMoreLoop(states: seq<Sys>, settings: Settings, steps: seq<Step>, input: Input)
    requires IsRun(states, settings, steps) && ValidInput(states[|steps|], settings, input)
    ensures IsRun(states + [LoopOnce(states[|steps|], settings, input)], settings, steps + [Loop(input)])
  {
    hide LoopOnce, ValidInput;
  }

  lemma EmptyRun(s0: Sys, settings: Settings, cid: string, mac: string) returns (states: seq<Sys>)
    requires Fresh(s0) && Canonical(mac) && cid != "" && cid !in s0.ids.memory && IsCalm(settings.cfg.weather)
    ensures |states| == 6 && IsRun(states, settings, RenewedWithoutDevices(OneDevice(cid, mac, true, true, 1.0)))
    ensures states[0] == s0 && Consistent(states[5].ids)
    ensures cid in states[5].ids.memory && states[5].ids.memory[cid] == mac
    ensures states[5].hub.link.up && !states[5].hub.link.needRepublish
    ensures IsUp(states[5].slots, mac) && Mentions(states[5].hub, Others(mac))
  {
    hide Iterate, ResolveAll, LiveSlugs, Canonical, Mentions, LoopOnce, Load;
    FreshProcessConsistent(s0.ids.file);
    hide Consistent;
    var s1 := Next(s0, settings, Connect);
    OneDeviceLoop(s1, settings, cid, mac, true, true, 1.0);
    var s2 := Next(s1, settings, Loop(OneDevice(cid, mac, true, true, 1.0)));
    var s3 := Next(s2, settings, Disconnect);
    var s4 := Next(s3, settings, Connect);
    EmptyScene(s4, settings);
    EmptyRepublish(s4, settings, mac);
    states := [s0, s1, s2, s3, s4, Next(s4, settings, Loop(EMPTY_SNAPSHOT))];
  }

  /** A device is seen live; the connection is renewed; the republish finds the snapshot empty, as it is
      after the feed failed to read its file and wrote a new one; and the device comes back before the
      bridge has missed it. Its switch state then reaches the broker with no config in that connection. */
  lemma DeviceMissesRepublish(s0: Sys, settings: Settings)
    requires Fresh(s0) && IsCalm(settings.cfg.weather)
    ensures exists live: Input, back: Input, states: seq<Sys> ::
              && IsRun(states, settings, RenewedWithoutDevices(live) + [Loop(back)])
              && states[0] == s0 && !Ordered(states[6].hub.link.sent)
  {
    hide Next, LoopOnce, ValidInput, Ordered, Canonical, Mentions, Fresh, Consistent, OneDevice, BackAgain, IsRun;
    var cid := UnusedId(s0.ids.memory.Keys);
    var mac := PLUG.slug;
    PlugIsMac();
    var live := OneDevice(cid, mac, true, true, 1.0);
    var first := EmptyRun(s0, settings, cid, mac);
    assert |first| == 6;
    var back := BackAgain(first[5], settings, cid, mac);
    MissedDeviceIsShown(first[5], settings, cid, mac);
    var states := first + [LoopOnce(first[5], settings, back)];
    OneMoreLoop(first, settings, RenewedWithoutDevices(live), back);
    assert states[0] == s0 && !Ordered(states[6].hub.link.sent);
  }

  lemma PlugIsMac()
    ensures Canonical(PLUG.slug)
  {
  }

  lemma EmptyRepublish(s: Sys, settings: Settings, mac: Slug)
    requires Republishes(s.hub) && s.hub.link.sent == [] && IsCalm(settings.cfg.weather)
    requires ValidInput(s, settings, EMPTY_SNAPSHOT)
    ensures var next := LoopOnce(s, settings, EMPTY_SNAPSHOT);
            && next.slots == s.slots && next.ids == s.ids
            && next.hub.link.up && !next.hub.link.needRepublish && Mentions(next.hub, Others(mac))
  {
    hide Iterate, ResolveAll, Mentions;
    EmptyScene(s, settings);
    InputEvents(s, settings, EMPTY_SNAPSHOT);
    IterateMentions(s.hub, settings.cfg, [], s.slots, EventsIn(s, settings, EMPTY_SNAPSHOT),
                    SlotsAfter(s, settings, EMPTY_SNAPSHOT), Ticks(s, settings, EMPTY_SNAPSHOT), Others(mac));
  }

  /** The connection is renewed while the device is away. */
  function RenewedInGrace(live: Input, away: Input, back: Input): seq<Step> {
    [Connect, Loop(live), Loop(away), Disconnect, Connect, Loop(back)]
  }

  lemma GraceRun(s0: Sys, settings: Settings, cid: string, mac: string) returns (states: seq<Sys>)
    requires Fresh(s0) && Canonical(mac) && cid != "" && cid !in s0.ids.memory
    ensures IsRun(states, settings, RenewedInGrace(OneDevice(cid, mac, true, true, 1.0),
                                                   OneDevice(cid, mac, true, false, 2.0),
                                                   OneDevice(cid, mac, true, true, 3.0)))
    ensures states[0] == s0 && Consistent(states[5].ids)
    ensures cid in states[5].ids.memory && states[5].ids.memory[cid] == mac
    ensures Republishes(states[5].hub) && states[5].hub.link.sent == [] && A.PhaseOf(states[5].slots, mac) == A.Grace
  {
    hide Iterate, ResolveAll, LiveSlugs, Canonical, LoopOnce, Load;
    FreshProcessConsistent(s0.ids.file);
    hide Consistent;
    var s1 := Next(s0, settings, Connect);
    OneDeviceLoop(s1, settings, cid, mac, true, true, 1.0);
    var s2 := Next(s1, settings, Loop(OneDevice(cid, mac, true, true, 1.0)));
    OneDeviceLoop(s2, settings, cid, mac, true, false, 2.0);
    var s3 := Next(s2, settings, Loop(OneDevice(cid, mac, true, false, 2.0)));
    var s4 := Next(s3, settings, Disconnect);
    var s5 := Next(s4, settings, Connect);
    OneDeviceLoop(s5, settings, cid, mac, true, true, 3.0);
    states := [s0, s1, s2, s3, s4, s5, Next(s5, settings, Loop(OneDevice(cid, mac, true, true, 3.0)))];
  }

  /** A device is seen live, then not; the connection is renewed while it is in its grace period; and the
      iteration that republishes finds it back. Its machine is up, and the broker retains "offline". */
  lemma ReturnIsAnnouncedOffline(s0: Sys, settings: Settings)
    requires Fresh(s0) && IsCalm(settings.cfg.weather)
    ensures exists live: Input, away: Input, back: Input, states: seq<Sys> ::
              && IsRun(states, settings, RenewedInGrace(live, away, back))
              && states[0] == s0 && IsUp(states[6].slots, PLUG.slug) && states[6].hub.link.up
              && PLUG.slug in SceneOf(states[5], settings, back).live
              && State(PLUG.slug, Availability) in states[6].hub.link.retained
              && states[6].hub.link.retained[State(PLUG.slug, Availability)] == Text("offline")
  {
    hide Iterate, ResolveAll, LiveSlugs, SceneOf, Canonical, LoopOnce, Load, Agree, Fresh, Consistent, IsUp;
    hide CachedAvailability;
    var cid := UnusedId(s0.ids.memory.Keys);
    var mac := PLUG.slug;
    PlugIsMac();
    var live, away := OneDevice(cid, mac, true, true, 1.0), OneDevice(cid, mac, true, false, 2.0);
    var back := OneDevice(cid, mac, true, true, 3.0);
    var states := GraceRun(s0, settings, cid, mac);
    var s5, s6 := states[5], states[6];
    assert s6 == LoopOnce(s5, settings, back);
    OneDeviceScene(s5, settings, cid, mac, true, true, 3.0);
    RepublishInGraceHidesReturn(s5, settings, back, mac);
    CacheAgreesWithBroker(states, settings, RenewedInGrace(live, away, back), 6);
    OneDeviceRepublish(s5, settings, cid, mac, 3.0);
    CachedIsRetained(s6.hub, mac, "offline");
  }

  lemma OneDeviceRepublish(s: Sys, settings: Settings, cid: string, mac: string, now: real)
    requires Republishes(s.hub) && s.hub.link.sent == [] && IsCalm(settings.cfg.weather)
    requires ValidInput(s, settings, OneDevice(cid, mac, true, true, now))
    requires Slugs(SceneOf(s, settings, OneDevice(cid, mac, true, true, now)).devs) == {mac}
    ensures var link := LoopOnce(s, settings, OneDevice(cid, mac, true, true, now)).hub.link; link.up && !link.needRepublish
  {
    hide Iterate, ResolveAll, Mentions;
    var input := OneDevice(cid, mac, true, true, now);
    var devs := SceneOf(s, settings, input).devs;
    InputEvents(s, settings, input);
    var slugs := iset slug | slug in Slugs(devs);
    assert forall d :: d in devs ==> d.slug in Slugs(devs);
    IterateMentions(s.hub, settings.cfg, devs, s.slots, EventsIn(s, settings, input), SlotsAfter(s, settings, input),
                    Ticks(s, settings, input), slugs);
  }

  lemma CachedIsRetained(h: Hub, mac: Slug, text: string)
    requires Agree(h) && h.link.up && !h.link.needRepublish && CachedAvailability(h, mac) == Some(text)
    ensures State(mac, Availability) in h.link.retained && h.link.retained[State(mac, Availability)] == Text(text)
  {
  }
}
