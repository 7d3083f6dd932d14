/** Under exactly which behaviour of the connection the runs of a freshly started bridge keep discovery before
    state, and leave at the broker what unconditional publishing would. */
module BridgeWeather {
  import opened Discovery
  import opened MacIdentity
  import opened StickyIdentity
  import opened BridgeModel
  import opened BridgePublishing
  import opened BridgeOrdering
  import opened BridgeReturns
  import opened BridgeRun
  import opened BridgeSafety
  import opened BridgeExact
  import A = Availability

  // ---- a first iteration, in any weather -----------------------------------------------

  /** Declaring, announcing and showing a device with one switch takes twelve publishes. */
  const FIRST_PUBLISHES := 12

  lemma {:induction false} SendAllTakes(l: Link, weather: nat -> Weather, items: seq<Item>)
    ensures SendAll(l, weather, items).clock == l.clock + |items|
  {
    if items != [] {
      SendAllTakes(l, weather, items[..|items| - 1]);
    }
  }

  function PlugOf(on: bool): Dev {
    Dev(PLUG.slug, "c", PLUG.slug, Switched(on))
  }

  /** What is cached then. */
  function ShownOnce(on: bool): map<Slug, Record> {
    map[PLUG.slug := map[Availability := "online", Outlet(0) := if on then "ON" else "OFF"]]
  }

  lemma FirstAnnouncement(h: Hub, cfg: Cfg, on: bool)
    requires h.lastPub == map[]
    ensures var next := Announced(Declared(h, cfg, EventJob(PlugOf(on), A.Online)), cfg, EventJob(PlugOf(on), A.Online));
            next.lastPub == map[PLUG.slug := map[Availability := "online"]] && next.link.clock == h.link.clock + 11
  {
    var d := PlugOf(on);
    var items := Declarations(d.slug, d.mac, false, DeclaredFields(false));
    SendAllTakes(h.link, cfg.weather, items);
    assert |DeclaredFields(false)| == 10;
    hide SendAll, Declarations;
    assert Declares(h, EventJob(d, A.Online));
  }

  lemma FirstShowing(h: Hub, cfg: Cfg, on: bool)
    requires h.lastPub == map[PLUG.slug := map[Availability := "online"]]
    ensures var next := Displayed(h, cfg, EventJob(PlugOf(on), A.Online));
            next.lastPub == ShownOnce(on) && next.link.clock == h.link.clock + 1
  {
    hide Send;
    var d := PlugOf(on);
    var touched := Touch(h, d.slug);
    assert touched.lastPub == h.lastPub;
    assert BASE == [Outlet(0)] + BASE[1..];
    PutFieldsConcat(touched, cfg, d.slug, d.entry, [Outlet(0)], BASE[1..], true);
    assert [Outlet(0)][..0] == [];
    var shown := Put(touched, cfg, d.slug, Outlet(0), if on then "ON" else "OFF", true);
    assert PutFields(touched, cfg, d.slug, d.entry, [Outlet(0)], true) == shown;
    NothingShown(shown, cfg, d.slug, d.entry, BASE[1..], true);
    SendTakes(touched.link, cfg.weather, State(d.slug, Outlet(0)), Text(if on then "ON" else "OFF"), true);
  }

  lemma SendTakes(l: Link, weather: nat -> Weather, topic: Topic, payload: Payload, retain: bool)
    ensures Send(l, weather, topic, payload, retain).clock == l.clock + 1
  {
  }

  /** Whatever the weather, a fresh bridge that first sees the device has cached what it shows. */
  lemma FirstIteration(h: Hub, cfg: Cfg, on: bool, after: map<Slug, A.Slot>)
    requires h.lastPub == map[] && !Republishes(h) && EventsKnown([(PLUG.slug, A.Online)], [PlugOf(on)])
    ensures var next := Iterate(h, cfg, [PlugOf(on)], map[], [(PLUG.slug, A.Online)], after, false);
            next.lastPub == ShownOnce(on) && next.link.clock == h.link.clock + FIRST_PUBLISHES
  {
    hide Displayed, Announced, Declared;
    var d := PlugOf(on);
    var vtpeJob, eventJob := VtpeJob(d, map[]), EventJob(d, A.Online);
    assert Plan(false, [d], map[], [(PLUG.slug, A.Online)], after, false) == [vtpeJob] + [eventJob];
    DoAllConcat(h, cfg, [vtpeJob], [eventJob]);
    DoOne(h, cfg, vtpeJob);
    DoOne(h, cfg, eventJob);
    FirstAnnouncement(h, cfg, on);
    FirstShowing(Announced(Declared(h, cfg, eventJob), cfg, eventJob), cfg, on);
  }

  // ---- a run in which the connection returns just before the n-th publish ------------------

  /** A bridge that has just started, beside an empty broker and an unreadable slug file. */
  function Started(clock: nat): Sys {
    Sys(Hub(map[], map[], Link(false, false, map[], [], clock)), map[], Ids(map[], Unreadable), 0.0, {}, {})
  }

  function SeenFirst(settings: Settings, on: bool): Input {
    OneDevice("c", PLUG.slug, on, true, settings.stateInterval - 1.0)
  }

  function SeenAtTick(settings: Settings): Input {
    OneDevice("c", PLUG.slug, true, true, settings.stateInterval)
  }

  /** The device is seen first; the connection is away and the broker forgets; and the device is seen on. */
  function FirstThenTick(settings: Settings, on: bool): seq<Step> {
    [Loop(SeenFirst(settings, on)), Disconnect, BrokerChanges(map[]), Loop(SeenAtTick(settings))]
  }

  lemma FirstLoop(settings: Settings, clock: nat, on: bool)
    ensures ValidInput(Started(clock), settings, SeenFirst(settings, on))
    ensures var next := LoopOnce(Started(clock), settings, SeenFirst(settings, on));
            && next.hub.lastPub == ShownOnce(on) && next.hub.link.clock == clock + FIRST_PUBLISHES
            && IsUp(next.slots, PLUG.slug) && next.lastState == 0.0
            && Consistent(next.ids) && "c" in next.ids.memory && next.ids.memory["c"] == PLUG.slug
  {
    hide Iterate, ResolveAll, LiveSlugs, Canonical, Load;
    var s, input := Started(clock), SeenFirst(settings, on);
    PlugIsMac();
    FreshProcessConsistent(Unreadable);
    NothingLoaded();
    hide Consistent;
    OneDeviceScene(s, settings, "c", PLUG.slug, on, true, input.now);
    OneDeviceLoop(s, settings, "c", PLUG.slug, on, true, input.now);
    InputEvents(s, settings, input);
    FirstEvent(input.now, settings.grace);
    FirstIteration(s.hub, settings.cfg, on, SlotsAfter(s, settings, input));
  }

  lemma NothingLoaded()
    ensures Load(Unreadable) == map[]
  {
  }

  lemma FirstEvent(now: real, grace: real)
    ensures A.Events(map[], {PLUG.slug}, [PLUG.slug], now, grace) == [(PLUG.slug, A.Online)]
  {
    assert [PLUG.slug][..0] == [];
    assert A.Events(map[], {PLUG.slug}, [PLUG.slug][..0], now, grace) == [];
  }

  /** The state before the second iteration. */
  ghost function BeforeTick(settings: Settings, clock: nat, on: bool): Sys
    requires ValidInput(Started(clock), settings, SeenFirst(settings, on))
  {
    var s1 := LoopOnce(Started(clock), settings, SeenFirst(settings, on));
    var s2 := s1.(hub := s1.hub.(link := Dropped(s1.hub.link)));
    s2.(hub := s2.hub.(link := s2.hub.link.(retained := map[])))
  }

  lemma TickLoop(settings: Settings, clock: nat, on: bool)
    requires ValidInput(Started(clock), settings, SeenFirst(settings, on))
    ensures var s := BeforeTick(settings, clock, on);
            && s.hub.lastPub == ShownOnce(on) && s.hub.link.clock == clock + FIRST_PUBLISHES
            && !s.hub.link.up && s.hub.link.retained == map[]
            && ValidInput(s, settings, SeenAtTick(settings))
            && LoopOnce(s, settings, SeenAtTick(settings)).hub
               == Put(Touch(s.hub, PLUG.slug), settings.cfg, PLUG.slug, Outlet(0), "ON", false)
  {
    hide Iterate, ResolveAll, LiveSlugs, Canonical, Load, Consistent, Put;
    FirstLoop(settings, clock, on);
    PlugIsMac();
    var s, input := BeforeTick(settings, clock, on), SeenAtTick(settings);
    OneDeviceScene(s, settings, "c", PLUG.slug, true, true, input.now);
    InputEvents(s, settings, input);
    NoEvent(s.slots, PLUG.slug, input.now, settings.grace);
    OneSwitchTick(s.hub, settings.cfg, PlugOf(true), s.slots, SlotsAfter(s, settings, input));
  }

  lemma FirstThenTickRun(settings: Settings, clock: nat, on: bool) returns (states: seq<Sys>)
    ensures IsRun(states, settings, FirstThenTick(settings, on)) && states[0] == Started(clock)
    ensures ValidInput(Started(clock), settings, SeenFirst(settings, on))
    ensures states[3] == BeforeTick(settings, clock, on)
    ensures states[4].hub == Put(Touch(states[3].hub, PLUG.slug), settings.cfg, PLUG.slug, Outlet(0), "ON", false)
    ensures RepublishesSeePresent(states, settings, FirstThenTick(settings, on))
  {
    hide LoopOnce, ValidInput, SceneOf, Put;
    FirstLoop(settings, clock, on);
    TickLoop(settings, clock, on);
    var s0 := Started(clock);
    var s1 := Next(s0, settings, Loop(SeenFirst(settings, on)));
    var s2 := Next(s1, settings, Disconnect);
    var s3 := Next(s2, settings, BrokerChanges(map[]));
    states := [s0, s1, s2, s3, Next(s3, settings, Loop(SeenAtTick(settings)))];
  }

  // ---- theorems: exactly when the connection does not come back within an iteration ----------

  /** The same weather, setting in some calm publishes later. */
  function Delayed(weather: nat -> Weather, delay: nat): nat -> Weather {
    n => if n < delay then Calm else weather(n - delay)
  }

  lemma DelayedReturns(weather: nat -> Weather, delay: nat)
    requires NoReturns(weather)
    ensures NoReturns(Delayed(weather, delay))
  {
  }

  /** A run from a fresh process in which every republish sees the devices that are present. */
  ghost predicate FairRun(states: seq<Sys>, settings: Settings, steps: seq<Step>) {
    IsRun(states, settings, steps) && Fresh(states[0]) && RepublishesSeePresent(states, settings, steps)
  }

  /** Whenever the weather sets in, all such runs keep discovery before state, at every moment, exactly if in
      that weather the connection never comes back within an iteration. */
  lemma RunsOrderedIffNoReturns(settings: Settings)
    ensures NoReturns(settings.cfg.weather)
       <==> forall delay: nat, states: seq<Sys>, steps: seq<Step>, i: nat ::
              FairRun(states, Under(settings, Delayed(settings.cfg.weather, delay)), steps) && i < |states| ==>
                Ordered(states[i].hub.link.sent)
  {
    hide Ordered, Next;
    if NoReturns(settings.cfg.weather) {
      forall delay: nat, states: seq<Sys>, steps: seq<Step>, i: nat
        | FairRun(states, Under(settings, Delayed(settings.cfg.weather, delay)), steps) && i < |states|
        ensures Ordered(states[i].hub.link.sent)
      {
        DelayedReturns(settings.cfg.weather, delay);
        DiscoveryBeforeState(states, Under(settings, Delayed(settings.cfg.weather, delay)), steps, i);
      }
    } else {
      var n: nat :| settings.cfg.weather(n) == Returns;
      var delay: nat := FIRST_PUBLISHES;
      var states := RunBreaksOrder(Under(settings, Delayed(settings.cfg.weather, delay)), n + delay);
    }
  }

  lemma RunBreaksOrder(settings: Settings, n: nat) returns (states: seq<Sys>)
    requires n >= FIRST_PUBLISHES && settings.cfg.weather(n) == Returns
    ensures FairRun(states, settings, FirstThenTick(settings, false)) && 4 < |states|
    ensures !Ordered(states[4].hub.link.sent)
  {
    hide Next, Ordered, LoopOnce, ValidInput, SceneOf, BeforeTick, Put, Fresh, RepublishesSeePresent;
    var clock: nat := n - FIRST_PUBLISHES;
    states := FirstThenTickRun(settings, clock, false);
    StartedIsFresh(clock);
    TickLoop(settings, clock, false);
    NewTextOnReturn(states[3].hub, settings.cfg);
  }

  lemma StartedIsFresh(clock: nat)
    ensures Fresh(Started(clock))
  {
  }

  lemma NewTextOnReturn(h: Hub, cfg: Cfg)
    requires h.lastPub == ShownOnce(false) && !h.link.up && cfg.weather(h.link.clock) == Returns
    ensures !Ordered(Put(Touch(h, PLUG.slug), cfg, PLUG.slug, Outlet(0), "ON", false).link.sent)
  {
    var sent := [Msg(State(PLUG.slug, Outlet(0)), Text("ON"))];
    assert Put(Touch(h, PLUG.slug), cfg, PLUG.slug, Outlet(0), "ON", false).link.sent == sent;
    assert !IsNamed(sent[..0], sent[0].topic);
  }

  /** The suppressing bridge and the unconditional one, side by side from the same fresh process. */
  ghost predicate TwinRuns(states: seq<Sys>, refs: seq<Sys>, settings: Settings, steps: seq<Step>) {
    && IsRun(states, settings, steps) && Fresh(states[0])
    && IsRun(refs, settings.(cfg := Eager(settings.cfg)), steps) && refs[0] == states[0]
  }

  /** Whenever the weather sets in, they leave the same messages at the broker, at every moment of every run,
      exactly if in that weather the connection never comes back within an iteration. */
  lemma RefinementIffNoReturns(settings: Settings)
    requires !settings.cfg.eager
    ensures NoReturns(settings.cfg.weather)
       <==> forall delay: nat, states: seq<Sys>, refs: seq<Sys>, steps: seq<Step>, i: nat ::
              TwinRuns(states, refs, Under(settings, Delayed(settings.cfg.weather, delay)), steps) && i < |states| ==>
                states[i].hub.link.retained == refs[i].hub.link.retained
  {
    hide Next;
    if NoReturns(settings.cfg.weather) {
      forall delay: nat, states: seq<Sys>, refs: seq<Sys>, steps: seq<Step>, i: nat
        | TwinRuns(states, refs, Under(settings, Delayed(settings.cfg.weather, delay)), steps) && i < |states|
        ensures states[i].hub.link.retained == refs[i].hub.link.retained
      {
        DelayedReturns(settings.cfg.weather, delay);
        SuppressionRefinesAlwaysPublishing(states, refs, Under(settings, Delayed(settings.cfg.weather, delay)), steps, i);
      }
    } else {
      var n: nat :| settings.cfg.weather(n) == Returns;
      var delay: nat := FIRST_PUBLISHES;
      var later := Under(settings, Delayed(settings.cfg.weather, delay));
      var states, refs := TwinsDiverge(later, n + delay);
      assert TwinRuns(states, refs, later, FirstThenTick(later, true)) && 4 < |states|;
    }
  }

  lemma TwinsDiverge(settings: Settings, n: nat) returns (states: seq<Sys>, refs: seq<Sys>)
    requires !settings.cfg.eager && n >= FIRST_PUBLISHES && settings.cfg.weather(n) == Returns
    ensures TwinRuns(states, refs, settings, FirstThenTick(settings, true)) && |states| == |refs| == 5
    ensures states[4].hub.link.retained != refs[4].hub.link.retained
  {
    hide Next, LoopOnce, ValidInput, SceneOf, BeforeTick, Put, Fresh;
    var clock: nat := n - FIRST_PUBLISHES;
    var eager := settings.(cfg := Eager(settings.cfg));
    states := FirstThenTickRun(settings, clock, true);
    refs := FirstThenTickRun(eager, clock, true);
    StartedIsFresh(clock);
    TickLoop(settings, clock, true);
    TickLoop(eager, clock, true);
    OldTextOnReturn(states[3].hub, refs[3].hub, settings.cfg);
  }

  lemma OldTextOnReturn(h: Hub, ref: Hub, cfg: Cfg)
    requires !cfg.eager && cfg.weather(h.link.clock) == Returns && ref.link.clock == h.link.clock
    requires h.lastPub == ref.lastPub == ShownOnce(true) && !h.link.up && !ref.link.up
    requires h.link.retained == ref.link.retained == map[]
    ensures Put(Touch(h, PLUG.slug), cfg, PLUG.slug, Outlet(0), "ON", false).link.retained
         != Put(Touch(ref, PLUG.slug), Eager(cfg), PLUG.slug, Outlet(0), "ON", false).link.retained
  {
    var topic := State(PLUG.slug, Outlet(0));
    assert topic !in Put(Touch(h, PLUG.slug), cfg, PLUG.slug, Outlet(0), "ON", false).link.retained;
    assert topic in Put(Touch(ref, PLUG.slug), Eager(cfg), PLUG.slug, Outlet(0), "ON", false).link.retained;
  }
}
